/** The simulator's own loops over mutable state, each proved to do what the state machine says. */
module PaperSimulator {
  import opened Values
  import opened Paper
  import PaperInvariants

  class Simulator {
    const cfg: Config
    const mk: Market
    const risk: RiskState
    var equity: real
    var openPositions: seq<Position>
    var pendingEntries: seq<Pending>
    var allTrades: seq<Trade>
    var ddCurve: seq<real>
    var draws: nat
    var raised: bool
    ghost var admitted: seq<Ticket>

    ghost function Now(): Sim
      reads this, risk
    {
      Sim(equity, risk.Value(), openPositions, pendingEntries, allTrades, ddCurve, draws, admitted, raised)
    }

    constructor (cfg: Config, mk: Market)
      ensures this.cfg == cfg && this.mk == mk && fresh(risk)
      ensures Now() == Start(cfg)
    {
      this.cfg, this.mk := cfg, mk;
      risk := new RiskState(cfg.baseRiskPct);
      equity, openPositions, pendingEntries, allTrades := cfg.baseEquity, [], [], [];
      ddCurve, draws, raised, admitted := [cfg.baseEquity], 0, false, [];
    }

    method Slippage() returns (slip: real)
      modifies this`draws
      ensures slip == mk.slip(old(draws)) && draws == old(draws) + 1
    {
      slip := mk.slip(draws);
      draws := draws + 1;
    }

    /* ---- exposure ---- */

    method BucketRisk(symbol: string, base: real) returns (pct: real)
      requires base != 0.0
      ensures pct == OpenPct(Tickets(openPositions), base, Bucket(symbol))
    {
      pct := 0.0;
      ghost var all := Tickets(openPositions);
      for i := 0 to |openPositions|
        invariant pct == OpenPct(all[..i], base, Bucket(symbol))
      {
        var t := openPositions[i].ticket;
        assert all[..i + 1] == all[..i] + [t];
        PaperInvariants.PctSnoc(all[..i], t, base, Bucket(symbol));
        if Overlaps(symbol, t.symbol) {
          pct := pct + t.riskAmount / base * 100.0;
        }
      }
      assert all[..|all|] == all;
    }

    method BucketCount(symbol: string) returns (n: nat)
      ensures n == OpenCount(Tickets(openPositions), Bucket(symbol))
    {
      n := 0;
      ghost var all := Tickets(openPositions);
      for i := 0 to |openPositions|
        invariant n == OpenCount(all[..i], Bucket(symbol))
      {
        var t := openPositions[i].ticket;
        assert all[..i + 1] == all[..i] + [t];
        PaperInvariants.CountSnoc(all[..i], t, Bucket(symbol));
        if Overlaps(symbol, t.symbol) {
          n := n + 1;
        }
      }
      assert all[..|all|] == all;
    }

    method Admission(symbol: string, strategy: string, newPct: real) returns (v: Verdict)
      ensures v == Judge(cfg, mk, Now(), symbol, strategy, newPct)
    {
      hide OpenPct, OpenCount;
      if openPositions != [] && cfg.baseEquity == 0.0 { return Raise; }
      var base := if cfg.baseEquity == 0.0 then 1.0 else cfg.baseEquity;
      var limits := LimitsOf(cfg, strategy);
      var totalAfter := OpenPct(Tickets(openPositions), base, Any()) + newPct;
      if Exceeds(totalAfter, cfg.totalHard) { return Refuse; }
      if Exceeds(totalAfter, cfg.totalSoft) { return Refuse; }
      var bucket := BucketRisk(symbol, base);
      if Exceeds(bucket + newPct, cfg.bucketCap) { return Refuse; }
      if cfg.groupCap.Some? && cfg.groupCap.value != 0.0 && mk.corrKnown {
        if equity == 0.0 && OpenCount(Tickets(openPositions), Group(mk, symbol)) > 0 { return Raise; }
        var groupPct := if equity == 0.0 then 0.0 else OpenPct(Tickets(openPositions), equity, Group(mk, symbol));
        if Exceeds(groupPct + newPct, cfg.groupCap) { return Refuse; }
      }
      if Exceeds(totalAfter, OrElse(limits.rEffHard, cfg.rEffHard)) { return Refuse; }
      if Exceeds(totalAfter, OrElse(limits.rEffSoft, cfg.rEffSoft)) { return Refuse; }
      if AtLimit(|openPositions|, limits.maxOverall) { return Refuse; }
      var overlapping := BucketCount(symbol);
      if AtLimit(overlapping, limits.maxBucket) { return Refuse; }
      return Admit;
    }

    /* ---- entries ---- */

    method AttemptOpen(e: Pending, bar: Bar)
      modifies this
      ensures Now() == OpenSpec(cfg, mk, old(Now()), e, bar)
    {
      hide Judge, EntryPrice, StopPrice;
      var sig := e.signal;
      if raised || !mk.entryAllowed(sig.strategy, sig.isLong, bar.ts) { return; }
      ghost var before := Now();
      var slip := Slippage();
      var entryPrice := EntryPrice(mk, e, bar, slip);
      var stop := StopPrice(mk, e, entryPrice);
      if stop.None? || entryPrice == stop.value { return; }
      var distance: Distance := Abs(entryPrice - stop.value);
      var newPct := MinR(risk.currentRiskPct, StrategyRiskPct(cfg, sig.strategy));
      var verdict := Admission(e.symbol, sig.strategy, newPct);
      assert verdict == Judge(cfg, mk, before, e.symbol, sig.strategy, newPct) by {
        DrawsDoNotMatter(cfg, mk, before, Now(), e.symbol, sig.strategy, newPct);
      }
      match verdict
      case Refuse =>
      case Raise => raised := true;
      case Admit =>
        var equityForRisk := if cfg.fixedRisk then cfg.baseEquity else equity;
        var t := Ticket(sig.strategy, e.symbol, sig.isLong, entryPrice,
                        if sig.isLong then entryPrice + cfg.targetR * distance else entryPrice - cfg.targetR * distance,
                        distance, equityForRisk * (newPct / 100.0), StrategyRiskPct(cfg, sig.strategy),
                        bar.ts + mk.ttl(sig.strategy), |ddCurve|);
        assert t == NewTicket(cfg, mk, before, e, bar, entryPrice, distance, newPct);
        openPositions := openPositions + [Position(t, stop.value)];
        admitted := admitted + [t];
    }

    method OpenPending(bar: Bar)
      modifies this
      ensures var s := old(Now());
              Now() == OpenAll(cfg, mk, s.(pending := EntriesFor(s.pending, bar.symbol, false)),
                               EntriesFor(s.pending, bar.symbol, true), bar)
    {
      hide OpenSpec;
      var due := EntriesFor(pendingEntries, bar.symbol, true);
      pendingEntries := EntriesFor(pendingEntries, bar.symbol, false);
      ghost var start := Now();
      for i := 0 to |due|
        invariant OpenAll(cfg, mk, Now(), due[i..], bar) == OpenAll(cfg, mk, start, due, bar)
      {
        assert due[i..][1..] == due[i + 1..];
        AttemptOpen(due[i], bar);
      }
    }

    method TakeSignals(bar: Bar)
      modifies this
      ensures Now() == SignalsSpec(cfg, mk, old(Now()), bar.signals, bar)
    {
      hide OpenSpec;
      ghost var start := Now();
      for i := 0 to |bar.signals|
        invariant SignalsSpec(cfg, mk, Now(), bar.signals[i..], bar) == SignalsSpec(cfg, mk, start, bar.signals, bar)
      {
        assert bar.signals[i..][1..] == bar.signals[i + 1..];
        ghost var s := Now();
        var spec := EntryOf(cfg, bar.signals[i], bar);
        if cfg.nextBarEntry {
          pendingEntries := pendingEntries + [spec];
        } else {
          AttemptOpen(spec, bar);
        }
        assert Now() == SignalSpec(cfg, mk, s, bar.signals[i], bar);
      }
    }

    /* ---- exits ---- */

    /** Book the trade; the caller removes the position. */
    method Book(p: Position, price: real, spread: real, ts: int)
      modifies this`equity, this`allTrades, this`draws, risk
      ensures Now() == Booked(cfg, old(Now()), TradeOf(cfg, p, price, spread + mk.slip(old(draws)), ts))
    {
      hide RiskAfter;
      var t := p.ticket;
      var slip := Slippage();
      var exit := if t.isLong then price - (spread + slip) else price + (spread + slip);
      var r := (if t.isLong then exit - t.entry else t.entry - exit) / t.riskDistance;
      var pnl := r * t.riskAmount;
      if cfg.commissionPct != 0.0 {
        pnl := pnl - t.riskAmount * (cfg.commissionPct / 100.0);
      }
      ghost var trade := TradeOf(cfg, p, price, spread + slip, ts);
      assert trade.exit == exit;
      assert Signed(t.isLong, exit - t.entry) == if t.isLong then exit - t.entry else t.entry - exit;
      assert trade.r == r && trade.pnl == pnl;
      equity := equity + pnl;
      risk.UpdateAfterTrade(r, cfg.streak, t.baseRiskPct);
      allTrades := allTrades + [Trade(t, ts, exit, p.stop, r, pnl, spread + slip)];
    }

    method ExitPositions(bar: Bar)
      modifies this, risk
      ensures Now() == ExitSpec(cfg, mk, old(Now()), bar, 0)
    {
      hide TradeOf, RiskAfter, ExitPrice, Trailed;
      ghost var start := Now();
      var i := 0;
      while i < |openPositions|
        invariant i <= |openPositions|
        invariant ExitSpec(cfg, mk, Now(), bar, i) == ExitSpec(cfg, mk, start, bar, 0)
        decreases |openPositions| - i
      {
        if openPositions[i].ticket.symbol != bar.symbol {
          i := i + 1;
          continue;
        }
        ghost var s := Now();
        var pos := Trailed(cfg, openPositions[i], bar);
        var price := ExitPrice(pos, bar);
        if price.None? {
          openPositions := openPositions[i := pos];
          assert Now() == ExitTurn(cfg, mk, s, bar, i);
          i := i + 1;
        } else {
          openPositions := Without(openPositions, i);
          Book(pos, price.value, mk.spread(bar.symbol, bar.ts), bar.ts);
          assert Now() == ExitTurn(cfg, mk, s, bar, i);
        }
      }
    }

    method CloseResidual(bars: seq<Bar>)
      modifies this, risk
      ensures Now() == Residual(cfg, mk, old(Now()), bars)
    {
      hide TradeOf, RiskAfter, LastClose, CloseAll, Booked;
      if raised || bars == [] || openPositions == [] { return; }
      ghost var start := Now();
      var lastTs := bars[|bars| - 1].ts;
      while openPositions != []
        invariant !raised && CloseAll(cfg, mk, Now(), bars, lastTs) == CloseAll(cfg, mk, start, bars, lastTs)
        decreases |openPositions|
      {
        var p := openPositions[0];
        var close := LastClose(bars, p.ticket.symbol);
        if close.None? {
          CloseOne(cfg, mk, Now(), bars, lastTs);
          raised := true;
          return;
        }
        ghost var s := Now();
        openPositions := openPositions[1..];
        CloseOne(cfg, mk, s, bars, lastTs);
        Book(p, close.value, mk.spread(p.ticket.symbol, lastTs), lastTs);
      }
      CloseNone(cfg, mk, Now(), bars, lastTs);
      ddCurve := ddCurve + [equity];
    }

    /* ---- the run ---- */

    method OnBar(bar: Bar)
      modifies this, risk
      ensures Now() == BarSpec(cfg, mk, old(Now()), bar)
    {
      hide ExitSpec, OpenAll, SignalsSpec;
      if raised { return; }
      ExitPositions(bar);
      if InSession(cfg, mk.hour(bar.ts)) {
        OpenPending(bar);
        if !raised && bar.featuresReady {
          TakeSignals(bar);
        }
      }
      if !raised {
        ddCurve := ddCurve + [equity];
      }
    }

    method Run(bars: seq<Bar>)
      requires Now() == Start(cfg)
      modifies this, risk
      ensures Now() == RunSpec(cfg, mk, bars)
    {
      hide BarSpec, Residual;
      for n := 0 to |bars|
        invariant Now() == After(cfg, mk, bars[..n])
      {
        assert bars[..n + 1][..n] == bars[..n];
        OnBar(bars[n]);
      }
      assert bars[..|bars|] == bars;
      CloseResidual(bars);
    }
  }

  lemma DrawsDoNotMatter(cfg: Config, mk: Market, s: Sim, t: Sim, symbol: string, strategy: string, newPct: real)
    requires t.open == s.open && t.equity == s.equity
    ensures Judge(cfg, mk, t, symbol, strategy, newPct) == Judge(cfg, mk, s, symbol, strategy, newPct)
  {}

  /** The first open position is the next one to be closed. */
  lemma CloseOne(cfg: Config, mk: Market, s: Sim, bars: seq<Bar>, ts: int)
    requires s.open != []
    ensures var (p, rest) := (s.open[0], s.(open := s.open[1..]));
            CloseAll(cfg, mk, s, bars, ts) ==
            match LastClose(bars, p.ticket.symbol)
            case None => s.(raised := true)
            case Some(close) =>
              var trade := TradeOf(cfg, p, close, mk.spread(p.ticket.symbol, ts) + mk.slip(s.draws), ts);
              CloseAll(cfg, mk, Booked(cfg, rest, trade), bars, ts)
  {
    hide TradeOf, RiskAfter, LastClose;
  }

  lemma CloseNone(cfg: Config, mk: Market, s: Sim, bars: seq<Bar>, ts: int)
    requires s.open == []
    ensures CloseAll(cfg, mk, s, bars, ts) == s
  {}
}
