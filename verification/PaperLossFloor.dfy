/** How bad a single trade, and a whole run, can be. */
module PaperLossFloor {
  import opened Values
  import opened Paper
  import opened PaperInvariants

  /* ---- one trade ---- */

  /** The price is no further against the position than its initial risk. */
  predicate Favourable(t: Ticket, price: real) { Signed(t.isLong, price - t.entry) >= 0.0 - t.riskDistance }

  predicate Floor(t: Trade) { t.r >= -1.0 - t.cost / t.ticket.riskDistance }

  lemma DivOrder(x: real, y: real, d: real)
    requires d > 0.0
    ensures x / d >= y / d <==> x >= y
  {
    assert x / d * d == x && y / d * d == y;
    TimesBoth(y / d, x / d, d);
  }

  lemma CostShare(cost: real, d: real)
    requires d > 0.0
    ensures (-d - cost) / d == -1.0 - cost / d
  {
    var q, whole := cost / d, (-d - cost) / d;
    assert q * d == cost && whole * d == -d - cost;
    TimesBoth(whole, -1.0 - q, d);
    TimesBoth(-1.0 - q, whole, d);
  }

  lemma Product(a: real, b: real)
    requires a >= 0.0 && b >= 0.0
    ensures a * b >= 0.0
  {}

  /** A trade loses more than its risk plus costs exactly when its price, before costs, was past the risk. */
  lemma FloorIffFavourable(cfg: Config, p: Position, price: real, cost: real, ts: int)
    ensures Floor(TradeOf(cfg, p, price, cost, ts)) <==> Favourable(p.ticket, price)
  {
    var t := p.ticket;
    var d := t.riskDistance as real;
    var gain := Signed(t.isLong, price - Signed(t.isLong, cost) - t.entry);
    assert gain == Signed(t.isLong, price - t.entry) - cost;
    CostShare(cost, d);
    DivOrder(gain, -d - cost, d);
  }

  lemma QuotientIs(x: real, y: real, d: real)
    requires d > 0.0 && x == y * d
    ensures x / d == y
  {
    var q := x / d;
    assert q * d == x;
    TimesBoth(q, y, d);
    TimesBoth(y, q, d);
  }

  /** From signal to exit, a trade makes the price move less both spreads and both slippages. */
  lemma RoundTripCosts(cfg: Config, mk: Market, s: Sim, e: Pending, bar: Bar, slip: real, stop: real, newPct: real,
                       price: real, cost: real, ts: int)
    requires e.basePrice.Some? && EntryPrice(mk, e, bar, slip) != stop
    ensures var entryPrice := EntryPrice(mk, e, bar, slip);
            var t := NewTicket(cfg, mk, s, e, bar, entryPrice, Abs(entryPrice - stop), newPct);
            TradeOf(cfg, Position(t, stop), price, cost, ts).r * t.riskDistance ==
            Signed(e.signal.isLong, price - e.basePrice.value) - (mk.spread(e.symbol, bar.ts) + slip) - cost
  {}

  /** Reaching the target pays the target multiple, less exit costs in units of risk. */
  lemma TargetPays(cfg: Config, mk: Market, s: Sim, e: Pending, bar: Bar, entryPrice: real, stop: real, newPct: real,
      cost: real, ts: int)
    requires entryPrice != stop
    ensures var t := NewTicket(cfg, mk, s, e, bar, entryPrice, Abs(entryPrice - stop), newPct);
            TradeOf(cfg, Position(t, stop), t.target, cost, ts).r == cfg.targetR - cost / t.riskDistance
  {
    var d := Abs(entryPrice - stop);
    var t := NewTicket(cfg, mk, s, e, bar, entryPrice, d, newPct);
    var q, reach := cost / d, cfg.targetR * d;
    assert q * d == cost;
    assert (cfg.targetR - q) * d == reach - cost;
    assert t.target == t.entry + Signed(t.isLong, reach);
    assert Signed(t.isLong, t.target - Signed(t.isLong, cost) - t.entry) == reach - cost;
    QuotientIs(reach - cost, cfg.targetR - q, d);
  }

  /** A volatility stop stands on the losing side, and being stopped there loses the risk and the exit costs. */
  lemma StopPays(cfg: Config, mk: Market, s: Sim, e: Pending, bar: Bar, entryPrice: real, newPct: real, cost: real,
                 ts: int)
    requires e.signal.level.None? && StopPrice(mk, e, entryPrice).Some?
    ensures var stop := StopPrice(mk, e, entryPrice).value;
            && Signed(e.signal.isLong, entryPrice - stop) > 0.0
            && var t := NewTicket(cfg, mk, s, e, bar, entryPrice, Abs(entryPrice - stop), newPct);
               TradeOf(cfg, Position(t, stop), stop, cost, ts).r == -1.0 - cost / t.riskDistance
  {
    var d := Abs(entryPrice - StopPrice(mk, e, entryPrice).value);
    CostShare(cost, d);
  }

  /** A breakout stop stands its buffer beyond the level, whatever the buffer asked for. */
  lemma LevelStopBuffer(mk: Market, e: Pending, entryPrice: real)
    requires e.signal.level.Some?
    ensures var stop := StopPrice(mk, e, entryPrice);
            && stop.Some? && Signed(e.signal.isLong, e.signal.level.value - stop.value) > 0.0
            && (e.signal.buffer.None? ==> Signed(e.signal.isLong, e.signal.level.value - stop.value) >= 0.08)
  {}

  /* ---- positions between bars ---- */

  predicate SaneBar(b: Bar) { b.low <= b.close <= b.high }

  /** Stop and target are both within the initial risk; stops only move in the position's favour. */
  predicate Geometry(p: Position) { Favourable(p.ticket, p.stop) && Favourable(p.ticket, p.ticket.target) }

  /** The price has not reached the stop. */
  predicate Beyond(p: Position, price: real) { Signed(p.ticket.isLong, price - p.stop) > 0.0 }

  /** No bar of the symbol has come since the position was opened. */
  ghost predicate OnLastBar(bars: seq<Bar>, t: Ticket) {
    forall j | t.bar <= j < |bars| :: bars[j].symbol != t.symbol
  }

  ghost predicate Watched(bars: seq<Bar>, p: Position) {
    var t := p.ticket;
    && 1 <= t.bar <= |bars| && bars[t.bar - 1].symbol == t.symbol && Geometry(p)
    && LastClose(bars, t.symbol).Some?
    && (OnLastBar(bars, t) || Beyond(p, LastClose(bars, t.symbol).value))
  }

  ghost predicate AllWatched(bars: seq<Bar>, open: seq<Position>) { forall p | p in open :: Watched(bars, p) }

  ghost predicate AllFloored(trades: seq<Trade>) { forall t | t in trades :: Floor(t) }

  lemma OtherSymbol(bars: seq<Bar>, bar: Bar, p: Position)
    requires Watched(bars, p) && p.ticket.symbol != bar.symbol
    ensures Watched(bars + [bar], p)
  {
    assert (bars + [bar])[..|bars|] == bars;
  }

  lemma TrailedRatchets(cfg: Config, p: Position, bar: Bar)
    requires Geometry(p)
    ensures Geometry(Trailed(cfg, p, bar)) && Trailed(cfg, p, bar).ticket == p.ticket
  {}

  /** A bar either closes the position at a favourable price or leaves its stop behind the close. */
  lemma BarOutcome(p: Position, bar: Bar)
    requires Geometry(p) && SaneBar(bar)
    ensures match ExitPrice(p, bar)
            case Some(price) => Favourable(p.ticket, price)
            case None => Beyond(p, bar.close)
  {}

  lemma SurvivorWatched(cfg: Config, bars: seq<Bar>, bar: Bar, p: Position)
    requires Watched(bars, p) && p.ticket.symbol == bar.symbol && SaneBar(bar)
    requires ExitPrice(Trailed(cfg, p, bar), bar).None?
    ensures Watched(bars + [bar], Trailed(cfg, p, bar))
  {
    TrailedRatchets(cfg, p, bar);
    BarOutcome(Trailed(cfg, p, bar), bar);
  }

  /** Positions before `i` have been carried over the bar, the others not yet. */
  ghost predicate HalfWatched(bars: seq<Bar>, bar: Bar, open: seq<Position>, i: nat)
    requires i <= |open|
  {
    && (forall k | 0 <= k < i :: Watched(bars + [bar], open[k]))
    && (forall k | i <= k < |open| :: Watched(bars, open[k]))
  }

  lemma {:induction false} ExitWatched(cfg: Config, mk: Market, s: Sim, bars: seq<Bar>, bar: Bar, i: nat)
    requires i <= |s.open| && SaneBar(bar) && HalfWatched(bars, bar, s.open, i) && AllFloored(s.trades)
    ensures var end := ExitSpec(cfg, mk, s, bar, i);
            AllWatched(bars + [bar], end.open) && AllFloored(end.trades) && end.pending == s.pending
              && end.raised == s.raised
    decreases |s.open| - i
  {
    hide Watched, Trailed, TradeOf, ExitPrice, Floor;
    if i < |s.open| {
      var p := s.open[i];
      if p.ticket.symbol != bar.symbol {
        OtherSymbol(bars, bar, p);
        ExitWatched(cfg, mk, s, bars, bar, i + 1);
      } else {
        var trailed := Trailed(cfg, p, bar);
        var next := ExitTurn(cfg, mk, s, bar, i);
        match ExitPrice(trailed, bar)
        case None =>
          SurvivorWatched(cfg, bars, bar, p);
          ExitWatched(cfg, mk, next, bars, bar, i + 1);
        case Some(price) =>
          ClosedAtFloor(cfg, bars, bar, p, mk.spread(bar.symbol, bar.ts) + mk.slip(s.draws));
          assert forall k :: 0 <= k < i ==> next.open[k] == s.open[k];
          assert forall k :: i <= k < |next.open| ==> next.open[k] == s.open[k + 1];
          ExitWatched(cfg, mk, next, bars, bar, i);
      }
    }
  }

  lemma ClosedAtFloor(cfg: Config, bars: seq<Bar>, bar: Bar, p: Position, cost: real)
    requires Watched(bars, p) && SaneBar(bar) && ExitPrice(Trailed(cfg, p, bar), bar).Some?
    ensures var q := Trailed(cfg, p, bar); Floor(TradeOf(cfg, q, ExitPrice(q, bar).value, cost, bar.ts))
  {
    var q := Trailed(cfg, p, bar);
    TrailedRatchets(cfg, p, bar);
    BarOutcome(q, bar);
    FloorIffFavourable(cfg, q, ExitPrice(q, bar).value, cost, bar.ts);
  }

  /* ---- entries ---- */

  lemma OpenWatched(cfg: Config, mk: Market, s: Sim, bars: seq<Bar>, e: Pending)
    requires bars != [] && cfg.targetR >= 0.0 && e.symbol == bars[|bars| - 1].symbol && |s.curve| == |bars|
    requires AllWatched(bars, s.open)
    ensures var next := OpenSpec(cfg, mk, s, e, bars[|bars| - 1]);
            AllWatched(bars, next.open) && next.trades == s.trades && next.curve == s.curve
  {
    hide Judge, EntryPrice, StopPrice, Watched;
    var bar := bars[|bars| - 1];
    var next := OpenSpec(cfg, mk, s, e, bar);
    if next.admitted != s.admitted {
      var entryPrice := EntryPrice(mk, e, bar, mk.slip(s.draws));
      var stop := StopPrice(mk, e, entryPrice).value;
      var newPct := MinR(s.risk.currentPct, StrategyRiskPct(cfg, e.signal.strategy));
      var t := NewTicket(cfg, mk, s, e, bar, entryPrice, Abs(entryPrice - stop), newPct);
      assert next.open == s.open + [Position(t, stop)];
      NewWatched(cfg, mk, s, bars, e, entryPrice, stop, newPct);
    }
  }

  lemma NewWatched(cfg: Config, mk: Market, s: Sim, bars: seq<Bar>, e: Pending, entryPrice: real, stop: real,
                   newPct: real)
    requires bars != [] && cfg.targetR >= 0.0 && e.symbol == bars[|bars| - 1].symbol && |s.curve| == |bars|
    requires entryPrice != stop
    ensures var t := NewTicket(cfg, mk, s, e, bars[|bars| - 1], entryPrice, Abs(entryPrice - stop), newPct);
            Watched(bars, Position(t, stop))
  {
    Product(cfg.targetR, Abs(entryPrice - stop));
  }

  lemma {:induction false} OpenAllWatched(cfg: Config, mk: Market, s: Sim, bars: seq<Bar>, entries: seq<Pending>)
    requires bars != [] && cfg.targetR >= 0.0 && |s.curve| == |bars| && AllWatched(bars, s.open)
    requires forall e | e in entries :: e.symbol == bars[|bars| - 1].symbol
    ensures var next := OpenAll(cfg, mk, s, entries, bars[|bars| - 1]);
            AllWatched(bars, next.open) && next.trades == s.trades && next.curve == s.curve
    decreases |entries|
  {
    hide OpenSpec, AllWatched;
    if entries == [] {
    } else {
      OpenWatched(cfg, mk, s, bars, entries[0]);
      OpenAllWatched(cfg, mk, OpenSpec(cfg, mk, s, entries[0], bars[|bars| - 1]), bars, entries[1..]);
    }
  }

  lemma {:induction false} SignalsWatched(cfg: Config, mk: Market, s: Sim, bars: seq<Bar>, signals: seq<Signal>)
    requires bars != [] && cfg.targetR >= 0.0 && |s.curve| == |bars| && AllWatched(bars, s.open)
    ensures var next := SignalsSpec(cfg, mk, s, signals, bars[|bars| - 1]);
            AllWatched(bars, next.open) && next.trades == s.trades && next.curve == s.curve
    decreases |signals|
  {
    hide OpenSpec, AllWatched;
    if signals == [] {
    } else {
      var bar := bars[|bars| - 1];
      OpenWatched(cfg, mk, s, bars, EntryOf(cfg, signals[0], bar));
      SignalsWatched(cfg, mk, SignalSpec(cfg, mk, s, signals[0], bar), bars, signals[1..]);
    }
  }

  lemma EntryWatched(cfg: Config, mk: Market, s: Sim, bars: seq<Bar>)
    requires bars != [] && cfg.targetR >= 0.0 && |s.curve| == |bars| && AllWatched(bars, s.open)
    ensures var next := EntrySpec(cfg, mk, s, bars[|bars| - 1]);
            AllWatched(bars, next.open) && next.trades == s.trades
  {
    hide AllWatched, OpenAll, SignalsSpec, EntriesFor;
    var bar := bars[|bars| - 1];
    var s2 := s.(pending := EntriesFor(s.pending, bar.symbol, false));
    EntriesForSymbol(s.pending, bar.symbol);
    OpenAllWatched(cfg, mk, s2, bars, EntriesFor(s.pending, bar.symbol, true));
    SignalsWatched(cfg, mk, OpenAll(cfg, mk, s2, EntriesFor(s.pending, bar.symbol, true), bar), bars, bar.signals);
  }

  /* ---- whole runs ---- */

  /** Every trade closed by a bar keeps the floor, and every position still open is watched. */
  lemma {:induction false} AfterWatched(cfg: Config, mk: Market, bars: seq<Bar>)
    requires cfg.targetR >= 0.0 && forall b | b in bars :: SaneBar(b)
    ensures var s := After(cfg, mk, bars); AllFloored(s.trades) && (!s.raised ==> AllWatched(bars, s.open))
    decreases |bars|
  {
    if bars == [] {
    } else {
      hide AllWatched, AllFloored, EntrySpec, ExitSpec, HalfWatched;
      var prev, bar := bars[..|bars| - 1], bars[|bars| - 1];
      var s := After(cfg, mk, prev);
      AfterWatched(cfg, mk, prev);
      assert bars == prev + [bar];
      if !s.raised {
        AfterPoints(cfg, mk, prev);
        StartHalf(prev, bar, s.open);
        ExitWatched(cfg, mk, s, prev, bar, 0);
        ExitCurve(cfg, mk, s, bar, 0);
        EntryWatched(cfg, mk, ExitSpec(cfg, mk, s, bar, 0), bars);
      }
    }
  }

  lemma StartHalf(bars: seq<Bar>, bar: Bar, open: seq<Position>)
    requires AllWatched(bars, open)
    ensures HalfWatched(bars, bar, open, 0)
  {}

  /** The trade was closed at the last close of its symbol, less its exit costs. */
  ghost predicate AtLastClose(bars: seq<Bar>, t: Trade) {
    && LastClose(bars, t.ticket.symbol).Some?
    && t.r == Signed(t.ticket.isLong, LastClose(bars, t.ticket.symbol).value - t.ticket.entry) / t.ticket.riskDistance
              - t.cost / t.ticket.riskDistance
  }

  ghost predicate FlooredOrLast(bars: seq<Bar>, trades: seq<Trade>) {
    forall t | t in trades :: Floor(t) || (OnLastBar(bars, t.ticket) && AtLastClose(bars, t))
  }

  lemma {:induction false} CloseAllFloored(cfg: Config, mk: Market, s: Sim, bars: seq<Bar>, ts: int)
    requires AllWatched(bars, s.open) && FlooredOrLast(bars, s.trades)
    ensures FlooredOrLast(bars, CloseAll(cfg, mk, s, bars, ts).trades)
    decreases |s.open|
  {
    hide TradeOf, Floor, OnLastBar, RiskAfter, AtLastClose;
    if s.open == [] {
    } else {
      var p := s.open[0];
      assert Watched(bars, p);
      var close := LastClose(bars, p.ticket.symbol).value;
      var cost := mk.spread(p.ticket.symbol, ts) + mk.slip(s.draws);
      var trade := TradeOf(cfg, p, close, cost, ts);
      ResidualFloor(cfg, bars, p, cost, ts);
      CloseAllFloored(cfg, mk, Booked(cfg, s.(open := s.open[1..]), trade), bars, ts);
    }
  }

  lemma DivMinus(x: real, c: real, d: real)
    requires d > 0.0
    ensures (x - c) / d == x / d - c / d
  {
    var q, r := x / d, c / d;
    assert q * d == x && r * d == c;
    assert (q - r) * d == x - c;
    QuotientIs(x - c, q - r, d);
  }

  lemma ResidualFloor(cfg: Config, bars: seq<Bar>, p: Position, cost: real, ts: int)
    requires Geometry(p) && LastClose(bars, p.ticket.symbol).Some?
    ensures var close := LastClose(bars, p.ticket.symbol).value;
            var trade := TradeOf(cfg, p, close, cost, ts);
            trade.ticket == p.ticket && (Beyond(p, close) ==> Floor(trade)) && AtLastClose(bars, trade)
  {
    hide LastClose;
    var close := LastClose(bars, p.ticket.symbol).value;
    FloorIffFavourable(cfg, p, close, cost, ts);
    DivMinus(Signed(p.ticket.isLong, close - p.ticket.entry), cost, p.ticket.riskDistance);
  }

  /** Longs and shorts, with or without trailing: a trade loses at most its risk plus its exit costs, unless it
      was opened on the last bar of its symbol; and then it is worth what that bar closed at. */
  lemma LossFloor(cfg: Config, mk: Market, bars: seq<Bar>)
    requires cfg.targetR >= 0.0 && forall b | b in bars :: SaneBar(b)
    ensures FlooredOrLast(bars, RunSpec(cfg, mk, bars).trades)
  {
    hide After, CloseAll, AllWatched;
    AfterWatched(cfg, mk, bars);
    var s := After(cfg, mk, bars);
    if !s.raised && bars != [] { CloseAllFloored(cfg, mk, s, bars, bars[|bars| - 1].ts); }
  }

  /* ---- equity ---- */

  /** The worst a position can do against its risk, before costs: one, or the move to the last close of its symbol
      when it was opened on that bar. */
  ghost function WorstMove(bars: seq<Bar>, t: Ticket): real {
    if OnLastBar(bars, t) && LastClose(bars, t.symbol).Some?
    then MaxR(1.0, Signed(t.isLong, t.entry - LastClose(bars, t.symbol).value) / t.riskDistance) else 1.0
  }

  ghost function MaxLoss(cfg: Config, bars: seq<Bar>, t: Trade): real {
    t.ticket.riskAmount * (WorstMove(bars, t.ticket) + t.cost / t.ticket.riskDistance) +
    if cfg.commissionPct != 0.0 then t.ticket.riskAmount * (cfg.commissionPct / 100.0) else 0.0
  }

  ghost function SumMaxLoss(cfg: Config, bars: seq<Bar>, trades: seq<Trade>): real {
    if trades == [] then 0.0
    else SumMaxLoss(cfg, bars, trades[..|trades| - 1]) + MaxLoss(cfg, bars, trades[|trades| - 1])
  }

  /** The P&L of a trade is what its r says. */
  predicate Priced(cfg: Config, t: Trade) {
    t.pnl == t.r * t.ticket.riskAmount
             - if cfg.commissionPct != 0.0 then t.ticket.riskAmount * (cfg.commissionPct / 100.0) else 0.0
  }

  ghost predicate Booking(cfg: Config, s: Sim) {
    && Conserved(cfg, s) && s.risk.currentPct >= 0.0 && SoundTickets(s.admitted)
    && forall t | t in s.trades :: Priced(cfg, t)
  }

  lemma OpenIsAdmitted(cfg: Config, s: Sim, t: Ticket)
    requires Conserved(cfg, s) && (t in Tickets(s.open) || t in Traded(s.trades))
    ensures t in s.admitted
  {
    assert t in multiset(s.admitted);
  }

  /** A position opened with risk sized on the starting equity, or on one that is not negative, risks no negative
      amount. */
  lemma OpenKeepsBooking(cfg: Config, mk: Market, s: Sim, e: Pending, bar: Bar)
    requires Policy(cfg) && Booking(cfg, s) && (cfg.fixedRisk || s.equity >= 0.0)
    ensures Booking(cfg, OpenSpec(cfg, mk, s, e, bar))
  {
    hide Judge, EntryPrice, StopPrice, NewTicket, Pct, Conserved, Priced, Exceeds, Policy, Slack;
    OpenConserves(cfg, mk, s, e, bar);
    var entryPrice := EntryPrice(mk, e, bar, mk.slip(s.draws));
    var stop := StopPrice(mk, e, entryPrice);
    if stop.Some? && entryPrice != stop.value {
      StrategyIsSound(cfg, e.signal.strategy);
      NewTicketSized(cfg, mk, s, e, bar, entryPrice, Abs(entryPrice - stop.value), CheckedPct(cfg, s, e),
                     MaxR(s.equity, cfg.baseEquity), CheckedPct(cfg, s, e));
    }
  }

  lemma ExitKeepsBooking(cfg: Config, mk: Market, s: Sim, bar: Bar, i: nat)
    requires Policy(cfg) && Booking(cfg, s) && i < |s.open|
    ensures Booking(cfg, ExitTurn(cfg, mk, s, bar, i))
  {
    hide Conserved, RiskAfter, ExitPrice, Trailed;
    ExitConserves(cfg, mk, s, bar, i);
    ExitTickets(cfg, mk, s, bar, i);
    var t := s.open[i].ticket;
    assert Tickets(s.open)[i] == t;
    OpenIsAdmitted(cfg, s, t);
    var next := ExitTurn(cfg, mk, s, bar, i);
    if |next.trades| > |s.trades| { RiskStaysNonNegative(cfg, s.risk, next.trades[|s.trades|].r, t.baseRiskPct); }
  }

  /** Risk is sized on the starting equity, or equity is not negative after any of the bars. */
  ghost predicate Solvent(cfg: Config, mk: Market, bars: seq<Bar>) {
    cfg.fixedRisk || forall k | 0 < k <= |bars| :: After(cfg, mk, bars[..k]).equity >= 0.0
  }

  lemma BarKeepsBooking(cfg: Config, mk: Market, s: Sim, bar: Bar)
    requires Policy(cfg) && Booking(cfg, s) && (cfg.fixedRisk || BarSpec(cfg, mk, s, bar).equity >= 0.0)
    ensures Booking(cfg, BarSpec(cfg, mk, s, bar))
  {
    hide OpenSpec, ExitTurn, EntrySpec, ExitSpec, Policy, Priced, SoundTickets;
    if !s.raised {
      var after := (x: Sim) => Booking(cfg, x);
      forall x: Sim, i: nat | after(x) && i < |x.open| ensures after(ExitTurn(cfg, mk, x, bar, i)) {
        ExitKeepsBooking(cfg, mk, x, bar, i);
      }
      ExitKeeps(cfg, mk, after, s, bar, 0);
      var s1 := ExitSpec(cfg, mk, s, bar, 0);
      EntryEquity(cfg, mk, s1, bar);
      var inv := (x: Sim) => Booking(cfg, x) && x.equity == s1.equity;
      forall x, e | inv(x) ensures inv(OpenSpec(cfg, mk, x, e, bar)) {
        OpenKeepsEquity(cfg, mk, x, e, bar);
        OpenKeepsBooking(cfg, mk, x, e, bar);
      }
      EntryKeeps(cfg, mk, inv, s1, bar);
    }
  }

  lemma {:induction false} AfterBooking(cfg: Config, mk: Market, bars: seq<Bar>)
    requires Policy(cfg) && Solvent(cfg, mk, bars)
    ensures Booking(cfg, After(cfg, mk, bars))
    decreases |bars|
  {
    hide BarSpec, Policy, Booking;
    if bars == [] {
      StartBooking(cfg);
    } else {
      var prev := bars[..|bars| - 1];
      assert bars[..|bars|] == bars;
      assert forall k | 0 < k <= |prev| :: prev[..k] == bars[..k];
      AfterBooking(cfg, mk, prev);
      BarKeepsBooking(cfg, mk, After(cfg, mk, prev), bars[|bars| - 1]);
    }
  }

  lemma StartBooking(cfg: Config)
    requires Policy(cfg)
    ensures Booking(cfg, Start(cfg))
  {
    assert Tickets([]) == [] && Traded([]) == [];
  }

  lemma {:induction false} CloseAllPriced(cfg: Config, mk: Market, s: Sim, bars: seq<Bar>, ts: int)
    requires forall t | t in s.trades :: Priced(cfg, t)
    ensures var end := CloseAll(cfg, mk, s, bars, ts);
            end.admitted == s.admitted && forall t | t in end.trades :: Priced(cfg, t)
    decreases |s.open|
  {
    hide RiskAfter, LastClose;
    if s.open != [] && LastClose(bars, s.open[0].ticket.symbol).Some? {
      var p := s.open[0];
      var trade := TradeOf(cfg, p, LastClose(bars, p.ticket.symbol).value,
                           mk.spread(p.ticket.symbol, ts) + mk.slip(s.draws), ts);
      CloseAllPriced(cfg, mk, Booked(cfg, s.(open := s.open[1..]), trade), bars, ts);
    }
  }

  lemma Negated(x: real, d: real)
    requires d > 0.0
    ensures -x / d == -(x / d)
  {
    var q := x / d;
    assert q * d == x;
    assert (-q) * d == -x;
    QuotientIs(-x, -q, d);
  }

  lemma WorstHolds(bars: seq<Bar>, t: Trade)
    requires Floor(t) || (OnLastBar(bars, t.ticket) && AtLastClose(bars, t))
    ensures t.r >= -WorstMove(bars, t.ticket) - t.cost / t.ticket.riskDistance
  {
    hide LastClose, OnLastBar;
    if LastClose(bars, t.ticket.symbol).Some? {
      var x := Signed(t.ticket.isLong, LastClose(bars, t.ticket.symbol).value - t.ticket.entry);
      assert -x == Signed(t.ticket.isLong, t.ticket.entry - LastClose(bars, t.ticket.symbol).value);
      Negated(x, t.ticket.riskDistance);
    }
  }

  /** A trade that did no worse than its worst move lost no more than that, exactly when its risk amount is not
      negative or it did as badly as that. */
  lemma TradeLossIff(cfg: Config, bars: seq<Bar>, t: Trade)
    requires Priced(cfg, t)
    requires t.r >= -WorstMove(bars, t.ticket) - t.cost / t.ticket.riskDistance
    ensures t.pnl >= -MaxLoss(cfg, bars, t) <==>
            t.ticket.riskAmount >= 0.0 || t.r == -WorstMove(bars, t.ticket) - t.cost / t.ticket.riskDistance
  {
    hide WorstMove;
    var worst := WorstMove(bars, t.ticket) + t.cost / t.ticket.riskDistance;
    var above, amount := t.r + worst, t.ticket.riskAmount;
    assert above * amount == t.r * amount + amount * worst;
    if amount >= 0.0 {
      Product(above, amount);
    } else if above > 0.0 {
      TimesBoth(amount, 0.0, above);
      TimesBoth(0.0, amount, above);
    }
  }

  lemma {:induction false} SumLoss(cfg: Config, bars: seq<Bar>, trades: seq<Trade>)
    requires FlooredOrLast(bars, trades) && forall t | t in trades :: Priced(cfg, t) && t.ticket.riskAmount >= 0.0
    ensures SumPnl(trades) >= -SumMaxLoss(cfg, bars, trades)
  {
    hide Priced, Floor, MaxLoss, OnLastBar, AtLastClose, WorstMove;
    if trades == [] {
    } else {
      var last := trades[|trades| - 1];
      SumLoss(cfg, bars, trades[..|trades| - 1]);
      assert last in trades;
      WorstHolds(bars, last);
      TradeLossIff(cfg, bars, last);
    }
  }

  /** Equity never ends below the start less the worst move, exit costs and commission of every trade, when risk
      is sized on the starting equity, or on one that is never negative after a bar. */
  lemma EquityFloor(cfg: Config, mk: Market, bars: seq<Bar>)
    requires Policy(cfg) && cfg.targetR >= 0.0 && Solvent(cfg, mk, bars) && forall b | b in bars :: SaneBar(b)
    ensures var end := RunSpec(cfg, mk, bars); end.equity >= cfg.baseEquity - SumMaxLoss(cfg, bars, end.trades)
  {
    hide After, CloseAll, Policy, SaneBar, Priced, FlooredOrLast, Solvent;
    var s, end := After(cfg, mk, bars), RunSpec(cfg, mk, bars);
    LossFloor(cfg, mk, bars);
    RunConserves(cfg, mk, bars);
    AfterBooking(cfg, mk, bars);
    if bars != [] {
      CloseAllPriced(cfg, mk, s, bars, bars[|bars| - 1].ts);
      CloseAllConserves(cfg, mk, s, bars, bars[|bars| - 1].ts);
    }
    forall t | t in end.trades ensures t.ticket.riskAmount >= 0.0 {
      var k :| 0 <= k < |end.trades| && end.trades[k] == t;
      assert Traded(end.trades)[k] == t.ticket;
      OpenIsAdmitted(cfg, end, t.ticket);
    }
    SumLoss(cfg, bars, end.trades);
  }

  /* ---- a run below its floor ---- */

  const ALL_OF_IT := LIMITS_OF_ONE.(basePerTradePct := 100.0, baseRiskPct := 100.0, totalHard := None,
                                    commissionPct := 1.0)

  // All of the equity is risked and lost, the commission leaves it below zero, and the next position wins.
  const WON_IN_DEBT := [
    Bar(0, "EURUSD", None, 100.0, 100.0, 100.0, 10.0, true, [BUY]),
    Bar(1, "EURUSD", None, 90.0, 90.0, 90.0, 10.0, true, [BUY]),
    Bar(2, "EURUSD", None, 110.0, 110.0, 110.0, 10.0, false, [])]

  /** What the signal of a bar opens at the given equity. */
  function Bought(bar: Bar, equity: real, seen: nat): Position {
    Position(Ticket("s", bar.symbol, true, bar.close, bar.close + 20.0, 10.0, equity, 100.0, bar.ts + 1000, seen),
             bar.close - 10.0)
  }

  lemma BuyOpensAll(s: Sim, bar: Bar)
    requires s.open == [] && s.pending == [] && !s.raised && s.risk.currentPct == 100.0
    requires bar.featuresReady && bar.signals == [BUY] && bar.atr == 10.0
    ensures var p := Bought(bar, s.equity, |s.curve|);
            EntrySpec(ALL_OF_IT, FLAT_MARKET, s, bar)
            == s.(open := [p], admitted := s.admitted + [p.ticket], draws := s.draws + 1)
  {
    var cfg, mk := ALL_OF_IT, FLAT_MARKET;
    var e := EntryOf(cfg, BUY, bar);
    EntryIsOneOpen(cfg, mk, s, bar);
    assert Tickets([]) == [];
    assert EntryPrice(mk, e, bar, mk.slip(s.draws)) == bar.close;
    assert StopPrice(mk, e, bar.close) == Some(bar.close - 10.0);
    assert Judge(cfg, mk, s, e.symbol, "s", 100.0) == Admit;
    assert NewTicket(cfg, mk, s, e, bar, bar.close, 10.0, 100.0) == Bought(bar, s.equity, |s.curve|).ticket;
  }

  /** The only open position leaves at the given price, without costs but for the commission. */
  lemma OnlyOneExits(s: Sim, bar: Bar, price: real)
    requires |s.open| == 1 && s.open[0].ticket.symbol == bar.symbol && ExitPrice(s.open[0], bar) == Some(price)
    ensures ExitSpec(ALL_OF_IT, FLAT_MARKET, s, bar, 0)
            == Booked(ALL_OF_IT, s.(open := []), TradeOf(ALL_OF_IT, s.open[0], price, 0.0, bar.ts))
  {
    hide ExitPrice, TradeOf, RiskAfter;
    assert Trailed(ALL_OF_IT, s.open[0], bar) == s.open[0];
    var next := ExitTurn(ALL_OF_IT, FLAT_MARKET, s, bar, 0);
    assert next.open == [];
  }

  lemma QuietEntry(s: Sim, bar: Bar)
    requires s.pending == [] && !s.raised && !bar.featuresReady
    ensures EntrySpec(ALL_OF_IT, FLAT_MARKET, s, bar) == s
  {
    assert EntriesFor([], bar.symbol, false) == EntriesFor([], bar.symbol, true) == [];
    assert s.(pending := []) == s;
  }

  /** The first trade loses its risk and the commission, the second wins twice a negative amount. */
  lemma TwoTrades(first: Position, second: Position)
    requires first == Bought(WON_IN_DEBT[0], 100.0, 1) && second == Bought(WON_IN_DEBT[1], -1.0, 2)
    ensures TradeOf(ALL_OF_IT, first, 90.0, 0.0, 1) == Trade(first.ticket, 1, 90.0, 90.0, -1.0, -101.0, 0.0)
    ensures TradeOf(ALL_OF_IT, second, 110.0, 0.0, 2) == Trade(second.ticket, 2, 110.0, 80.0, 2.0, -1.99, 0.0)
  {}

  lemma DebtFloor(first: Trade, second: Trade)
    requires first.ticket == Bought(WON_IN_DEBT[0], 100.0, 1).ticket && first.cost == 0.0
    requires second.ticket == Bought(WON_IN_DEBT[1], -1.0, 2).ticket && second.cost == 0.0
    ensures SumMaxLoss(ALL_OF_IT, WON_IN_DEBT, [first, second]) == 99.99
  {
    var bars := WON_IN_DEBT;
    assert bars[1].symbol == bars[2].symbol == "EURUSD";
    assert !OnLastBar(bars, first.ticket) && !OnLastBar(bars, second.ticket);
    assert MaxLoss(ALL_OF_IT, bars, first) == 101.0 && MaxLoss(ALL_OF_IT, bars, second) == -1.01;
    assert [first, second][..1] == [first] && [first][..0] == [];
    assert SumMaxLoss(ALL_OF_IT, bars, [first]) == SumMaxLoss(ALL_OF_IT, bars, []) + 101.0;
  }

  /** A run sized on negative equity ends below the floor: a position won in debt costs money. */
  lemma DebtBreaksFloor()
    ensures Policy(ALL_OF_IT) && !Solvent(ALL_OF_IT, FLAT_MARKET, WON_IN_DEBT)
    ensures var end := RunSpec(ALL_OF_IT, FLAT_MARKET, WON_IN_DEBT);
            && !end.raised && end.equity == -2.99
            && ALL_OF_IT.baseEquity - SumMaxLoss(ALL_OF_IT, WON_IN_DEBT, end.trades) == 0.01
  {
    hide EntrySpec, ExitSpec, TradeOf, SumMaxLoss;
    var cfg, mk, bars := ALL_OF_IT, FLAT_MARKET, WON_IN_DEBT;
    assert bars[..0] == [] && bars[..1][..0] == [] && bars[..2][..1] == bars[..1] && bars[..3] == bars;
    var start := Start(cfg);
    NothingExits(start, bars[0]);
    BuyOpensAll(start, bars[0]);
    var s1 := After(cfg, mk, bars[..1]);
    assert s1 == BarSpec(cfg, mk, start, bars[0]);
    TwoTrades(s1.open[0], Bought(bars[1], -1.0, 2));
    OnlyOneExits(s1, bars[1], 90.0);
    var lost := ExitSpec(cfg, mk, s1, bars[1], 0);
    assert lost.equity == -1.0;
    BuyOpensAll(lost, bars[1]);
    var s2 := After(cfg, mk, bars[..2]);
    assert s2 == BarSpec(cfg, mk, s1, bars[1]);
    OnlyOneExits(s2, bars[2], 110.0);
    var won := ExitSpec(cfg, mk, s2, bars[2], 0);
    QuietEntry(won, bars[2]);
    assert After(cfg, mk, bars) == BarSpec(cfg, mk, s2, bars[2]);
    assert won.trades == [won.trades[0], won.trades[1]];
    DebtFloor(won.trades[0], won.trades[1]);
  }

  lemma NothingExits(s: Sim, bar: Bar)
    requires s == Start(ALL_OF_IT)
    ensures After(ALL_OF_IT, FLAT_MARKET, []) == s && ExitSpec(ALL_OF_IT, FLAT_MARKET, s, bar, 0) == s
  {}
}
