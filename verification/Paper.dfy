/** The paper-trading simulator as a state machine: one step per bar, over exact prices and money. */
module Paper {
  import opened Values

  /* ---- configuration and inputs ---- */

  datatype StreakRules = StreakRules(lossThreshold: int, lossRiskPct: real, winThreshold: int,
                                     winStepPct: real, winCapPct: real, resetOnLoss: bool)

  datatype Limits = Limits(perTradePct: real, rEffSoft: Option<real>, rEffHard: Option<real>,
                           maxOverall: Option<int>, maxBucket: Option<int>)

  datatype Config = Config(
    baseEquity: real, basePerTradePct: real, baseRiskPct: real, streak: StreakRules, limits: map<string, Limits>,
    totalSoft: Option<real>, totalHard: Option<real>, bucketCap: Option<real>,
    rEffSoft: Option<real>, rEffHard: Option<real>, groupCap: Option<real>,
    commissionPct: real, fixedRisk: bool, nextBarEntry: bool, session: Option<(int, int)>,
    trailAtrMult: Option<real>, targetR: real)

  // Everything computed outside the event loop. `slip(n)` is the n-th slippage drawn.
  datatype Market = Market(
    spread: (string, int) -> real, slip: nat -> real, hour: int -> int,
    entryAllowed: (string, bool, int) -> bool, ttl: string -> int, atrStopMult: string -> real,
    corrKnown: bool, corr: (string, string) -> real)

  datatype Signal = Signal(strategy: string, isLong: bool, level: Option<real>, buffer: Option<real>)

  datatype Bar = Bar(ts: int, symbol: string, open: Option<real>, low: real, high: real, close: real,
                     atr: real, featuresReady: bool, signals: seq<Signal>)

  datatype Pending = Pending(symbol: string, signal: Signal, atr: real, basePrice: Option<real>)

  type Distance = x: real | x > 0.0 witness 1.0

  // The part of a position that never changes. `bar` counts the bars seen when it was opened.
  datatype Ticket = Ticket(strategy: string, symbol: string, isLong: bool, entry: real, target: real,
                           riskDistance: Distance, riskAmount: real, baseRiskPct: real, expireAt: int, bar: nat)

  datatype Position = Position(ticket: Ticket, stop: real)

  // `r` and `pnl` before rounding; `cost` is the exit's spread plus slippage.
  datatype Trade = Trade(ticket: Ticket, closedAt: int, exit: real, stop: real, r: real, pnl: real, cost: real)

  datatype Risk = Risk(currentPct: real, wins: int, losses: int)

  // `admitted` lists the tickets ever opened; `raised` marks a division by zero that ends the run.
  datatype Sim = Sim(equity: real, risk: Risk, open: seq<Position>, pending: seq<Pending>, trades: seq<Trade>,
                     curve: seq<real>, draws: nat, admitted: seq<Ticket>, raised: bool)

  /* ---- streak-aware risk ---- */

  function RiskAfter(risk: Risk, r: real, streak: StreakRules, basePct: real): Risk {
    if r > 0.0 then
      var wins := risk.wins + 1;
      var steps := wins - streak.winThreshold + 1;
      Risk(if wins >= streak.winThreshold then MinR(streak.winCapPct, basePct + steps as real * streak.winStepPct)
           else basePct, wins, 0)
    else
      var losses := risk.losses + 1;
      Risk(if losses >= streak.lossThreshold then streak.lossRiskPct else basePct, 0, losses)
  }

  class RiskState {
    var currentRiskPct: real
    var consecutiveWins: int
    var consecutiveLosses: int

    constructor (pct: real)
      ensures Value() == Risk(pct, 0, 0)
    {
      currentRiskPct, consecutiveWins, consecutiveLosses := pct, 0, 0;
    }

    function Value(): Risk
      reads this
    {
      Risk(currentRiskPct, consecutiveWins, consecutiveLosses)
    }

    method UpdateAfterTrade(r: real, streak: StreakRules, basePct: real)
      modifies this
      ensures Value() == RiskAfter(old(Value()), r, streak, basePct)
    {
      if r > 0.0 {
        consecutiveWins := consecutiveWins + 1;
        consecutiveLosses := 0;
        if consecutiveWins >= streak.winThreshold {
          var steps := consecutiveWins - streak.winThreshold + 1;
          var bumped := basePct + steps as real * streak.winStepPct;
          currentRiskPct := MinR(streak.winCapPct, bumped);
        } else {
          currentRiskPct := basePct;
        }
      } else {
        consecutiveLosses := consecutiveLosses + 1;
        consecutiveWins := 0;
        if consecutiveLosses >= streak.lossThreshold {
          currentRiskPct := streak.lossRiskPct;
        } else {
          currentRiskPct := basePct;
        }
        if streak.resetOnLoss {
          consecutiveWins := 0;
        }
      }
    }
  }

  /* ---- open exposure ---- */

  function Upper(s: string): string {
    seq(|s|, i requires 0 <= i < |s| => if 'a' <= s[i] <= 'z' then s[i] - 'a' + 'A' else s[i])
  }

  function BaseCurrency(symbol: string): Option<string> {
    if |symbol| >= 3 then Some(Upper(symbol[..3])) else None
  }

  function QuoteCurrency(symbol: string): Option<string> {
    if |symbol| >= 6 then Some(Upper(symbol[3..6])) else None
  }

  predicate Touches(symbol: string, currency: string) {
    BaseCurrency(symbol) == Some(currency) || QuoteCurrency(symbol) == Some(currency)
  }

  predicate Overlaps(symbol: string, other: string) {
    || (BaseCurrency(symbol).Some? && Touches(other, BaseCurrency(symbol).value))
    || (QuoteCurrency(symbol).Some? && Touches(other, QuoteCurrency(symbol).value))
  }

  // Selections of symbols, each named once.
  function Any(): string -> bool { _ => true }
  function Bucket(symbol: string): string -> bool { other => Overlaps(symbol, other) }
  function Using(currency: string): string -> bool { other => Touches(other, currency) }
  function Group(mk: Market, symbol: string): string -> bool { other => mk.corr(symbol, other) >= 0.7 }

  function Tickets(open: seq<Position>): (r: seq<Ticket>)
    ensures |r| == |open|
  {
    seq(|open|, i requires 0 <= i < |open| => open[i].ticket)
  }

  function Pct(t: Ticket, equity: real): real
    requires equity != 0.0
  {
    t.riskAmount / equity * 100.0
  }

  /** Open risk of the selected symbols, in percent of `equity`. */
  function OpenPct(tickets: seq<Ticket>, equity: real, sel: string -> bool): real
    requires equity != 0.0
  {
    if tickets == [] then 0.0
    else (if sel(tickets[0].symbol) then Pct(tickets[0], equity) else 0.0) + OpenPct(tickets[1..], equity, sel)
  }

  function OpenCount(tickets: seq<Ticket>, sel: string -> bool): nat {
    if tickets == [] then 0 else (if sel(tickets[0].symbol) then 1 else 0) + OpenCount(tickets[1..], sel)
  }

  /* ---- admission ---- */

  // A limit that is absent or zero is not enforced.
  predicate Exceeds(x: real, cap: Option<real>) { cap.Some? && cap.value != 0.0 && x > cap.value }

  function OrElse(a: Option<real>, b: Option<real>): Option<real> {
    if a.Some? && a.value != 0.0 then a else b
  }

  function LimitsOf(cfg: Config, strategy: string): Limits {
    if strategy in cfg.limits then cfg.limits[strategy] else Limits(cfg.basePerTradePct, None, None, None, None)
  }

  function StrategyRiskPct(cfg: Config, strategy: string): real {
    var pct := LimitsOf(cfg, strategy).perTradePct;
    if pct != 0.0 then pct else cfg.basePerTradePct
  }

  datatype Verdict = Admit | Refuse | Raise

  predicate AtLimit(count: nat, limit: Option<int>) { limit.Some? && count >= limit.value }

  /** Open risk of the correlated symbols, in percent of the current equity. */
  function GroupPct(mk: Market, s: Sim, symbol: string): real {
    if s.equity == 0.0 then 0.0 else OpenPct(Tickets(s.open), s.equity, Group(mk, symbol))
  }

  /** The caps, in the order they are checked. Open risk is measured against the starting equity,
      except in the correlation group. */
  function Judge(cfg: Config, mk: Market, s: Sim, symbol: string, strategy: string, newPct: real): Verdict {
    if s.open != [] && cfg.baseEquity == 0.0 then Raise
    else
      var open := Tickets(s.open);
      var base := if cfg.baseEquity == 0.0 then 1.0 else cfg.baseEquity;
      var limits := LimitsOf(cfg, strategy);
      var totalAfter := OpenPct(open, base, Any()) + newPct;
      var grouped := cfg.groupCap.Some? && cfg.groupCap.value != 0.0 && mk.corrKnown;
      if Exceeds(totalAfter, cfg.totalHard) || Exceeds(totalAfter, cfg.totalSoft) then Refuse
      else if Exceeds(OpenPct(open, base, Bucket(symbol)) + newPct, cfg.bucketCap) then Refuse
      else if grouped && s.equity == 0.0 && OpenCount(open, Group(mk, symbol)) > 0 then Raise
      else if grouped && Exceeds(GroupPct(mk, s, symbol) + newPct, cfg.groupCap) then Refuse
      else if Exceeds(totalAfter, OrElse(limits.rEffHard, cfg.rEffHard)) then Refuse
      else if Exceeds(totalAfter, OrElse(limits.rEffSoft, cfg.rEffSoft)) then Refuse
      else if AtLimit(|s.open|, limits.maxOverall) then Refuse
      else if AtLimit(OpenCount(open, Bucket(symbol)), limits.maxBucket) then Refuse
      else Admit
  }

  function Signed(isLong: bool, x: real): real { if isLong then x else -x }

  function EntryPrice(mk: Market, e: Pending, bar: Bar, slip: real): real {
    var base := if e.basePrice.Some? then e.basePrice.value else if bar.open.Some? then bar.open.value else bar.close;
    base + Signed(e.signal.isLong, mk.spread(e.symbol, bar.ts) + slip)
  }

  /** The stop, or None when the volatility buffer is not positive. */
  function StopPrice(mk: Market, e: Pending, entryPrice: real): Option<real> {
    var sig := e.signal;
    if sig.level.None? then
      var buffer := e.atr * mk.atrStopMult(sig.strategy);
      if buffer <= 0.0 then None else Some(entryPrice - Signed(sig.isLong, buffer))
    else
      var buffer := if sig.buffer.None? || sig.buffer.value <= 0.0 then MaxR(0.08, e.atr * 0.03) else sig.buffer.value;
      Some(sig.level.value - Signed(sig.isLong, buffer))
  }

  function Abs(x: real): real { if x < 0.0 then -x else x }

  function NewTicket(cfg: Config, mk: Market, s: Sim, e: Pending, bar: Bar, entryPrice: real, distance: Distance,
      newPct: real): Ticket {
    var sig := e.signal;
    Ticket(sig.strategy, e.symbol, sig.isLong, entryPrice,
           entryPrice + Signed(sig.isLong, cfg.targetR * distance), distance,
           (if cfg.fixedRisk then cfg.baseEquity else s.equity) * (newPct / 100.0),
           StrategyRiskPct(cfg, sig.strategy), bar.ts + mk.ttl(sig.strategy), |s.curve|)
  }

  function OpenSpec(cfg: Config, mk: Market, s: Sim, e: Pending, bar: Bar): Sim {
    var sig := e.signal;
    if s.raised || !mk.entryAllowed(sig.strategy, sig.isLong, bar.ts) then s
    else
      var drawn := s.(draws := s.draws + 1);
      var entryPrice := EntryPrice(mk, e, bar, mk.slip(s.draws));
      var stop := StopPrice(mk, e, entryPrice);
      if stop.None? || entryPrice == stop.value then drawn
      else
        var distance := Abs(entryPrice - stop.value);
        var newPct := MinR(s.risk.currentPct, StrategyRiskPct(cfg, sig.strategy));
        match Judge(cfg, mk, s, e.symbol, sig.strategy, newPct)
        case Refuse => drawn
        case Raise => drawn.(raised := true)
        case Admit =>
          var t := NewTicket(cfg, mk, s, e, bar, entryPrice, distance, newPct);
          drawn.(open := s.open + [Position(t, stop.value)], admitted := s.admitted + [t])
  }

  /* ---- exits ---- */

  function Trailed(cfg: Config, p: Position, bar: Bar): Position {
    if cfg.trailAtrMult.None? || bar.atr <= 0.0 then p
    else
      var distance := MaxR(0.05, bar.atr * cfg.trailAtrMult.value);
      p.(stop := if p.ticket.isLong then MaxR(p.stop, bar.high - distance) else MinR(p.stop, bar.low + distance))
  }

  /** Stop first, then target, then expiry at the close. */
  function ExitPrice(p: Position, bar: Bar): Option<real> {
    var t := p.ticket;
    if (if t.isLong then bar.low <= p.stop else bar.high >= p.stop) then Some(p.stop)
    else if (if t.isLong then bar.high >= t.target else bar.low <= t.target) then Some(t.target)
    else if bar.ts >= t.expireAt then Some(bar.close)
    else None
  }

  function TradeOf(cfg: Config, p: Position, price: real, cost: real, ts: int): Trade {
    var t := p.ticket;
    var exit := price - Signed(t.isLong, cost);
    var r := Signed(t.isLong, exit - t.entry) / t.riskDistance;
    var pnl := r * t.riskAmount;
    var net := if cfg.commissionPct != 0.0 then pnl - t.riskAmount * (cfg.commissionPct / 100.0) else pnl;
    Trade(t, ts, exit, p.stop, r, net, cost)
  }

  /** Book the trade; the position itself is removed by the caller. */
  function Booked(cfg: Config, s: Sim, trade: Trade): Sim {
    s.(equity := s.equity + trade.pnl,
       risk := RiskAfter(s.risk, trade.r, cfg.streak, trade.ticket.baseRiskPct),
       trades := s.trades + [trade], draws := s.draws + 1)
  }

  function Without<T>(xs: seq<T>, i: nat): seq<T>
    requires i < |xs|
  {
    xs[..i] + xs[i + 1..]
  }

  /** One turn of the exit loop, for an open position of the bar's symbol. */
  function ExitTurn(cfg: Config, mk: Market, s: Sim, bar: Bar, i: nat): Sim
    requires i < |s.open|
  {
    var p := Trailed(cfg, s.open[i], bar);
    match ExitPrice(p, bar)
    case None => s.(open := s.open[i := p])
    case Some(price) =>
      var trade := TradeOf(cfg, p, price, mk.spread(bar.symbol, bar.ts) + mk.slip(s.draws), bar.ts);
      Booked(cfg, s.(open := Without(s.open, i)), trade)
  }

  function ExitSpec(cfg: Config, mk: Market, s: Sim, bar: Bar, i: nat): Sim
    requires i <= |s.open|
    decreases |s.open| - i
  {
    if i == |s.open| then s
    else if s.open[i].ticket.symbol != bar.symbol then ExitSpec(cfg, mk, s, bar, i + 1)
    else
      var next := ExitTurn(cfg, mk, s, bar, i);
      ExitSpec(cfg, mk, next, bar, if |next.open| < |s.open| then i else i + 1)
  }

  /* ---- one bar ---- */

  predicate InSession(cfg: Config, hour: int) {
    match cfg.session
    case None => true
    case Some((from, to)) => if from <= to then from <= hour <= to else hour >= from || hour <= to
  }

  function OpenAll(cfg: Config, mk: Market, s: Sim, entries: seq<Pending>, bar: Bar): Sim
    decreases |entries|
  {
    if entries == [] then s else OpenAll(cfg, mk, OpenSpec(cfg, mk, s, entries[0], bar), entries[1..], bar)
  }

  function EntriesFor(pending: seq<Pending>, symbol: string, same: bool): seq<Pending> {
    if pending == [] then []
    else (if (pending[0].symbol == symbol) == same then [pending[0]] else []) + EntriesFor(pending[1..], symbol, same)
  }

  function EntryOf(cfg: Config, sig: Signal, bar: Bar): Pending {
    Pending(bar.symbol, sig, bar.atr, if cfg.nextBarEntry then None else Some(bar.close))
  }

  function SignalSpec(cfg: Config, mk: Market, s: Sim, sig: Signal, bar: Bar): Sim {
    if cfg.nextBarEntry then s.(pending := s.pending + [EntryOf(cfg, sig, bar)])
    else OpenSpec(cfg, mk, s, EntryOf(cfg, sig, bar), bar)
  }

  function SignalsSpec(cfg: Config, mk: Market, s: Sim, signals: seq<Signal>, bar: Bar): Sim
    decreases |signals|
  {
    if signals == [] then s else SignalsSpec(cfg, mk, SignalSpec(cfg, mk, s, signals[0], bar), signals[1..], bar)
  }

  // A run that has raised records no further points.
  function Marked(s: Sim): Sim { if s.raised then s else s.(curve := s.curve + [s.equity]) }

  function EntrySpec(cfg: Config, mk: Market, s: Sim, bar: Bar): Sim {
    if !InSession(cfg, mk.hour(bar.ts)) then s
    else
      var s1 := OpenAll(cfg, mk, s.(pending := EntriesFor(s.pending, bar.symbol, false)),
                            EntriesFor(s.pending, bar.symbol, true), bar);
      if s1.raised || !bar.featuresReady then s1 else SignalsSpec(cfg, mk, s1, bar.signals, bar)
  }

  function BarSpec(cfg: Config, mk: Market, s: Sim, bar: Bar): Sim {
    if s.raised then s else Marked(EntrySpec(cfg, mk, ExitSpec(cfg, mk, s, bar, 0), bar))
  }

  /* ---- the whole run ---- */

  function Start(cfg: Config): Sim {
    Sim(cfg.baseEquity, Risk(cfg.baseRiskPct, 0, 0), [], [], [], [cfg.baseEquity], 0, [], false)
  }

  /** The state after the given bars. */
  function After(cfg: Config, mk: Market, bars: seq<Bar>): Sim {
    if bars == [] then Start(cfg) else BarSpec(cfg, mk, After(cfg, mk, bars[..|bars| - 1]), bars[|bars| - 1])
  }

  /** The close of the last bar of a symbol. */
  function LastClose(bars: seq<Bar>, symbol: string): Option<real> {
    if bars == [] then None
    else
      var last := bars[|bars| - 1];
      if last.symbol == symbol then Some(last.close) else LastClose(bars[..|bars| - 1], symbol)
  }

  /** Close what is still open, first position first, at the last close of its symbol. */
  function CloseAll(cfg: Config, mk: Market, s: Sim, bars: seq<Bar>, lastTs: int): Sim
    decreases |s.open|
  {
    if s.open == [] then s
    else
      var p := s.open[0];
      match LastClose(bars, p.ticket.symbol)
      case None => s.(raised := true)
      case Some(close) =>
        var trade := TradeOf(cfg, p, close, mk.spread(p.ticket.symbol, lastTs) + mk.slip(s.draws), lastTs);
        CloseAll(cfg, mk, Booked(cfg, s.(open := s.open[1..]), trade), bars, lastTs)
  }

  function Residual(cfg: Config, mk: Market, s: Sim, bars: seq<Bar>): Sim {
    if s.raised || bars == [] || s.open == [] then s
    else Marked(CloseAll(cfg, mk, s, bars, bars[|bars| - 1].ts))
  }

  function RunSpec(cfg: Config, mk: Market, bars: seq<Bar>): Sim {
    Residual(cfg, mk, After(cfg, mk, bars), bars)
  }
}
