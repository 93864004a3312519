/** Which runs of the simulator end in a division by zero. */
module PaperRaise {
  import opened Values
  import opened Paper
  import opened PaperInvariants

  /* ---- one attempt ---- */

  /** The admission check divides by the current equity: there is a correlation cap, and there are correlations. */
  predicate DividesByEquity(cfg: Config, mk: Market) {
    cfg.groupCap.Some? && cfg.groupCap.value != 0.0 && mk.corrKnown
  }

  predicate OverACap(cfg: Config, s: Sim, symbol: string, newPct: real)
    requires cfg.baseEquity != 0.0
  {
    var total := OpenPct(Tickets(s.open), cfg.baseEquity, Any()) + newPct;
    || Exceeds(total, cfg.totalHard) || Exceeds(total, cfg.totalSoft)
    || Exceeds(OpenPct(Tickets(s.open), cfg.baseEquity, Bucket(symbol)) + newPct, cfg.bucketCap)
  }

  /** A check made in this state divides by zero. */
  predicate CheckFails(cfg: Config, mk: Market, s: Sim, symbol: string, newPct: real) {
    if cfg.baseEquity == 0.0 then s.open != []
    else DividesByEquity(cfg, mk) && s.equity == 0.0 && OpenCount(Tickets(s.open), Group(mk, symbol)) > 0
         && !OverACap(cfg, s, symbol, newPct)
  }

  /** The check divides by zero exactly when equity is gone while a correlated position is open, unless a total or
      bucket cap refuses first; and, without a starting equity, as soon as anything is open. */
  lemma JudgeRaisesIff(cfg: Config, mk: Market, s: Sim, symbol: string, strategy: string, newPct: real)
    ensures Judge(cfg, mk, s, symbol, strategy, newPct) == Raise <==> CheckFails(cfg, mk, s, symbol, newPct)
  {
    hide OpenPct, Exceeds;
    if s.open == [] { assert Tickets(s.open) == []; }
  }

  // An attempt to open a position, in the state it is made in.
  datatype Attempt = Attempt(s: Sim, e: Pending, bar: Bar)

  /** The attempt reaches the check, and the check divides by zero. */
  predicate Fails(cfg: Config, mk: Market, a: Attempt) {
    var sig := a.e.signal;
    var entryPrice := EntryPrice(mk, a.e, a.bar, mk.slip(a.s.draws));
    var stop := StopPrice(mk, a.e, entryPrice);
    && mk.entryAllowed(sig.strategy, sig.isLong, a.bar.ts) && stop.Some? && entryPrice != stop.value
    && CheckFails(cfg, mk, a.s, a.e.symbol, CheckedPct(cfg, a.s, a.e))
  }

  lemma OpenRaisesIff(cfg: Config, mk: Market, s: Sim, e: Pending, bar: Bar)
    requires !s.raised
    ensures OpenSpec(cfg, mk, s, e, bar).raised <==> Fails(cfg, mk, Attempt(s, e, bar))
  {
    hide Judge, CheckFails, EntryPrice, StopPrice, NewTicket;
    JudgeRaisesIff(cfg, mk, s, e.symbol, e.signal.strategy, CheckedPct(cfg, s, e));
  }

  /* ---- the attempts of a run ---- */

  ghost function PendingAttempts(cfg: Config, mk: Market, s: Sim, entries: seq<Pending>, bar: Bar): seq<Attempt>
    decreases |entries|
  {
    if entries == [] || s.raised then []
    else
      [Attempt(s, entries[0], bar)]
      + PendingAttempts(cfg, mk, OpenSpec(cfg, mk, s, entries[0], bar), entries[1..], bar)
  }

  ghost function SignalAttempts(cfg: Config, mk: Market, s: Sim, signals: seq<Signal>, bar: Bar): seq<Attempt>
    decreases |signals|
  {
    if signals == [] || s.raised || cfg.nextBarEntry then []
    else
      [Attempt(s, EntryOf(cfg, signals[0], bar), bar)]
      + SignalAttempts(cfg, mk, SignalSpec(cfg, mk, s, signals[0], bar), signals[1..], bar)
  }

  /** The attempts on one bar, after its exits. */
  ghost function BarAttempts(cfg: Config, mk: Market, s: Sim, bar: Bar): seq<Attempt> {
    if s.raised || !InSession(cfg, mk.hour(bar.ts)) then []
    else
      var s1 := s.(pending := EntriesFor(s.pending, bar.symbol, false));
      var due := EntriesFor(s.pending, bar.symbol, true);
      PendingAttempts(cfg, mk, s1, due, bar)
      + if bar.featuresReady then SignalAttempts(cfg, mk, OpenAll(cfg, mk, s1, due, bar), bar.signals, bar) else []
  }

  /** Every attempt a run makes, in order. */
  ghost function Attempts(cfg: Config, mk: Market, bars: seq<Bar>): seq<Attempt> {
    if bars == [] then []
    else
      var prev, bar := bars[..|bars| - 1], bars[|bars| - 1];
      Attempts(cfg, mk, prev) + BarAttempts(cfg, mk, ExitSpec(cfg, mk, After(cfg, mk, prev), bar, 0), bar)
  }

  ghost predicate AnyFails(cfg: Config, mk: Market, attempts: seq<Attempt>) {
    exists a :: a in attempts && Fails(cfg, mk, a)
  }

  lemma AnyOfBoth(cfg: Config, mk: Market, xs: seq<Attempt>, ys: seq<Attempt>)
    ensures AnyFails(cfg, mk, xs + ys) <==> AnyFails(cfg, mk, xs) || AnyFails(cfg, mk, ys)
    ensures |xs| == 1 ==> (AnyFails(cfg, mk, xs) <==> Fails(cfg, mk, xs[0]))
  {
    hide Fails;
    if |xs| == 1 { assert xs[0] in xs; }
    forall a ensures a in xs + ys <==> a in xs || a in ys {}
  }

  lemma {:induction false} PendingRaiseIff(cfg: Config, mk: Market, s: Sim, entries: seq<Pending>, bar: Bar)
    ensures OpenAll(cfg, mk, s, entries, bar).raised <==>
            s.raised || AnyFails(cfg, mk, PendingAttempts(cfg, mk, s, entries, bar))
    decreases |entries|
  {
    hide OpenSpec, AnyFails, Fails;
    AnyOfBoth(cfg, mk, [], []);
    if entries == [] {
      NoneFails(cfg, mk);
    } else {
      var next := OpenSpec(cfg, mk, s, entries[0], bar);
      PendingRaiseIff(cfg, mk, next, entries[1..], bar);
      if s.raised {
        RaisedStays(cfg, mk, s, entries[0], bar);
      } else {
        OpenRaisesIff(cfg, mk, s, entries[0], bar);
        AnyOfBoth(cfg, mk, [Attempt(s, entries[0], bar)], PendingAttempts(cfg, mk, next, entries[1..], bar));
      }
    }
  }

  lemma NoneFails(cfg: Config, mk: Market)
    ensures !AnyFails(cfg, mk, [])
  {}

  lemma RaisedStays(cfg: Config, mk: Market, s: Sim, e: Pending, bar: Bar)
    requires s.raised
    ensures OpenSpec(cfg, mk, s, e, bar) == s
  {}

  lemma {:induction false} SignalsRaiseIff(cfg: Config, mk: Market, s: Sim, signals: seq<Signal>, bar: Bar)
    ensures SignalsSpec(cfg, mk, s, signals, bar).raised <==>
            s.raised || AnyFails(cfg, mk, SignalAttempts(cfg, mk, s, signals, bar))
    decreases |signals|
  {
    hide OpenSpec, AnyFails, Fails;
    if signals == [] {
      NoneFails(cfg, mk);
    } else {
      var e, next := EntryOf(cfg, signals[0], bar), SignalSpec(cfg, mk, s, signals[0], bar);
      SignalsRaiseIff(cfg, mk, next, signals[1..], bar);
      NoneFails(cfg, mk);
      if s.raised {
        RaisedStays(cfg, mk, s, e, bar);
      } else if !cfg.nextBarEntry {
        OpenRaisesIff(cfg, mk, s, e, bar);
        AnyOfBoth(cfg, mk, [Attempt(s, e, bar)], SignalAttempts(cfg, mk, next, signals[1..], bar));
      }
    }
  }

  lemma BarRaisesIff(cfg: Config, mk: Market, s: Sim, bar: Bar)
    ensures EntrySpec(cfg, mk, s, bar).raised <==> s.raised || AnyFails(cfg, mk, BarAttempts(cfg, mk, s, bar))
  {
    hide OpenAll, SignalsSpec, EntriesFor, AnyFails, PendingAttempts, SignalAttempts;
    NoneFails(cfg, mk);
    var s1 := s.(pending := EntriesFor(s.pending, bar.symbol, false));
    var due := EntriesFor(s.pending, bar.symbol, true);
    var s2 := OpenAll(cfg, mk, s1, due, bar);
    PendingRaiseIff(cfg, mk, s1, due, bar);
    SignalsRaiseIff(cfg, mk, s2, bar.signals, bar);
    NoneAfterRaise(cfg, mk, s2, bar);
    AnyOfBoth(cfg, mk, PendingAttempts(cfg, mk, s1, due, bar),
              if bar.featuresReady then SignalAttempts(cfg, mk, s2, bar.signals, bar) else []);
  }

  lemma NoneAfterRaise(cfg: Config, mk: Market, s: Sim, bar: Bar)
    ensures s.raised ==> SignalAttempts(cfg, mk, s, bar.signals, bar) == []
  {}

  lemma ExitRaises(cfg: Config, mk: Market, s: Sim, bar: Bar)
    ensures ExitSpec(cfg, mk, s, bar, 0).raised == s.raised
  {
    hide ExitTurn;
    var inv := (x: Sim) => x.raised == s.raised;
    forall x: Sim, i: nat | inv(x) && i < |x.open| ensures inv(ExitTurn(cfg, mk, x, bar, i)) {
      ExitTurnRaises(cfg, mk, x, bar, i);
    }
    ExitKeeps(cfg, mk, inv, s, bar, 0);
  }

  lemma ExitTurnRaises(cfg: Config, mk: Market, s: Sim, bar: Bar, i: nat)
    requires i < |s.open|
    ensures ExitTurn(cfg, mk, s, bar, i).raised == s.raised
  {
    hide ExitPrice, TradeOf, Trailed;
  }

  lemma {:induction false} AfterRaisesIff(cfg: Config, mk: Market, bars: seq<Bar>)
    ensures After(cfg, mk, bars).raised <==> AnyFails(cfg, mk, Attempts(cfg, mk, bars))
  {
    hide AnyFails, BarAttempts, EntrySpec, ExitSpec;
    if bars == [] {
      NoneFails(cfg, mk);
    } else {
      var prev, bar := bars[..|bars| - 1], bars[|bars| - 1];
      var s := After(cfg, mk, prev);
      AfterRaisesIff(cfg, mk, prev);
      ExitRaises(cfg, mk, s, bar);
      var s1 := ExitSpec(cfg, mk, s, bar, 0);
      BarRaisesIff(cfg, mk, s1, bar);
      AnyOfBoth(cfg, mk, Attempts(cfg, mk, prev), BarAttempts(cfg, mk, s1, bar));
    }
  }

  /* ---- closing the rest needs a last close, and there is one ---- */

  ghost predicate Priceable(bars: seq<Bar>, s: Sim) {
    forall p | p in s.open :: LastClose(bars, p.ticket.symbol).Some?
  }

  lemma {:induction false} SeenHasClose(bars: seq<Bar>, bar: Bar)
    requires bar in bars
    ensures LastClose(bars, bar.symbol).Some?
  {
    if bars[|bars| - 1].symbol == bar.symbol {
    } else {
      SeenHasClose(bars[..|bars| - 1], bar);
    }
  }

  lemma OpenIsPriceable(cfg: Config, mk: Market, bars: seq<Bar>, s: Sim, e: Pending, bar: Bar)
    requires Priceable(bars, s) && bar in bars && e.symbol == bar.symbol
    ensures Priceable(bars, OpenSpec(cfg, mk, s, e, bar))
  {
    hide Judge, EntryPrice, StopPrice, LastClose;
    SeenHasClose(bars, bar);
  }

  lemma ExitIsPriceable(cfg: Config, mk: Market, bars: seq<Bar>, s: Sim, bar: Bar, i: nat)
    requires Priceable(bars, s) && i < |s.open|
    ensures Priceable(bars, ExitTurn(cfg, mk, s, bar, i))
  {
    hide LastClose, ExitPrice, TradeOf;
    var next := ExitTurn(cfg, mk, s, bar, i);
    forall p | p in next.open ensures LastClose(bars, p.ticket.symbol).Some? {
      var k :| 0 <= k < |next.open| && next.open[k] == p;
      if |next.open| == |s.open| {
        assert p.ticket == s.open[k].ticket && s.open[k] in s.open;
      } else {
        assert p == s.open[if k < i then k else k + 1];
      }
    }
  }

  lemma {:induction false} CloseAllPriceable(cfg: Config, mk: Market, s: Sim, bars: seq<Bar>, ts: int)
    requires Priceable(bars, s)
    ensures CloseAll(cfg, mk, s, bars, ts).raised == s.raised
    decreases |s.open|
  {
    hide LastClose, TradeOf, RiskAfter;
    if s.open == [] {
    } else {
      var p := s.open[0];
      assert p in s.open;
      var close := LastClose(bars, p.ticket.symbol).value;
      var trade := TradeOf(cfg, p, close, mk.spread(p.ticket.symbol, ts) + mk.slip(s.draws), ts);
      CloseAllPriceable(cfg, mk, Booked(cfg, s.(open := s.open[1..]), trade), bars, ts);
    }
  }

  lemma AfterPriceable(cfg: Config, mk: Market, bars: seq<Bar>)
    ensures Priceable(bars, After(cfg, mk, bars))
  {
    hide OpenSpec, ExitTurn, After, LastClose;
    var inv := (s: Sim) => Priceable(bars, s);
    forall s, e: Pending, bar | bar in bars && e.symbol == bar.symbol && inv(s)
      ensures inv(OpenSpec(cfg, mk, s, e, bar))
    {
      OpenIsPriceable(cfg, mk, bars, s, e, bar);
    }
    forall s: Sim, bar, i: nat | inv(s) && i < |s.open| ensures inv(ExitTurn(cfg, mk, s, bar, i)) {
      ExitIsPriceable(cfg, mk, bars, s, bar, i);
    }
    RunKeeps(cfg, mk, inv, bars);
  }

  /* ---- every run ---- */

  /** A run ends in a division by zero exactly when one of the attempts it makes meets the guard of its check. */
  lemma RunRaisesIff(cfg: Config, mk: Market, bars: seq<Bar>)
    ensures RunSpec(cfg, mk, bars).raised <==> AnyFails(cfg, mk, Attempts(cfg, mk, bars))
  {
    hide After, CloseAll, AnyFails, Attempts;
    AfterRaisesIff(cfg, mk, bars);
    AfterPriceable(cfg, mk, bars);
    if bars != [] { CloseAllPriceable(cfg, mk, After(cfg, mk, bars), bars, bars[|bars| - 1].ts); }
  }

  ghost predicate AllAt(attempts: seq<Attempt>, equity: real) { forall a | a in attempts :: a.s.equity == equity }

  lemma {:induction false} PendingEquity(cfg: Config, mk: Market, s: Sim, entries: seq<Pending>, bar: Bar)
    ensures AllAt(PendingAttempts(cfg, mk, s, entries, bar), s.equity)
            && OpenAll(cfg, mk, s, entries, bar).equity == s.equity
    decreases |entries|
  {
    hide OpenSpec;
    if entries == [] {
    } else {
      OpenKeepsEquity(cfg, mk, s, entries[0], bar);
      PendingEquity(cfg, mk, OpenSpec(cfg, mk, s, entries[0], bar), entries[1..], bar);
    }
  }

  lemma {:induction false} SignalEquity(cfg: Config, mk: Market, s: Sim, signals: seq<Signal>, bar: Bar)
    ensures AllAt(SignalAttempts(cfg, mk, s, signals, bar), s.equity)
    decreases |signals|
  {
    hide OpenSpec;
    if signals == [] {
    } else {
      OpenKeepsEquity(cfg, mk, s, EntryOf(cfg, signals[0], bar), bar);
      SignalEquity(cfg, mk, SignalSpec(cfg, mk, s, signals[0], bar), signals[1..], bar);
    }
  }

  /** An attempt is made at the equity its bar leaves behind. */
  lemma {:induction false} AttemptEquity(cfg: Config, mk: Market, bars: seq<Bar>, a: Attempt)
    requires a in Attempts(cfg, mk, bars)
    ensures exists k :: 0 < k <= |bars| && a.s.equity == After(cfg, mk, bars[..k]).equity
  {
    hide BarAttempts, EntrySpec, ExitSpec;
    var n := |bars| - 1;
    var prev, bar := bars[..n], bars[n];
    if a in Attempts(cfg, mk, prev) {
      AttemptEquity(cfg, mk, prev, a);
      var k :| 0 < k <= |prev| && a.s.equity == After(cfg, mk, prev[..k]).equity;
      assert prev[..k] == bars[..k];
    } else {
      var s := After(cfg, mk, prev);
      var s1 := ExitSpec(cfg, mk, s, bar, 0);
      ExitRaises(cfg, mk, s, bar);
      BarEquity(cfg, mk, s1, bar);
      EntryEquity(cfg, mk, s1, bar);
      assert bars[..n + 1] == bars;
    }
  }

  lemma BarEquity(cfg: Config, mk: Market, s: Sim, bar: Bar)
    ensures AllAt(BarAttempts(cfg, mk, s, bar), s.equity) && (s.raised ==> BarAttempts(cfg, mk, s, bar) == [])
  {
    hide OpenAll, EntriesFor, PendingAttempts, SignalAttempts;
    var s1 := s.(pending := EntriesFor(s.pending, bar.symbol, false));
    var due := EntriesFor(s.pending, bar.symbol, true);
    PendingEquity(cfg, mk, s1, due, bar);
    SignalEquity(cfg, mk, OpenAll(cfg, mk, s1, due, bar), bar.signals, bar);
  }

  /** With a starting equity, no run divides by zero in which equity is never zero after a bar, or in which no
      check divides by it; whatever the bars. */
  lemma SolventNeverRaises(cfg: Config, mk: Market, bars: seq<Bar>)
    requires cfg.baseEquity != 0.0
    requires !DividesByEquity(cfg, mk) || forall k | 0 < k <= |bars| :: After(cfg, mk, bars[..k]).equity != 0.0
    ensures !RunSpec(cfg, mk, bars).raised
  {
    hide RunSpec, After, Attempts;
    RunRaisesIff(cfg, mk, bars);
    if RunSpec(cfg, mk, bars).raised {
      var a :| a in Attempts(cfg, mk, bars) && Fails(cfg, mk, a);
      AttemptEquity(cfg, mk, bars, a);
    }
  }

  /* ---- a run that does ---- */

  const ALL_IN := LIMITS_OF_ONE.(basePerTradePct := 100.0, baseRiskPct := 100.0, totalHard := None,
                                 groupCap := Some(1000.0))

  const CORRELATED := FLAT_MARKET.(corrKnown := true, corr := (a, b) => if a == b then 0.0 else 1.0)

  // Two correlated positions are opened, the first is stopped out for all of the equity, and another signal comes.
  function StoppedOut(ts: int): seq<Bar> {
    [Bar(ts, "EURUSD", None, 100.0, 100.0, 100.0, 10.0, true, [BUY]),
     Bar(ts, "GBPUSD", None, 100.0, 100.0, 100.0, 10.0, true, [BUY]),
     Bar(ts + 1, "EURUSD", None, 90.0, 90.0, 90.0, 10.0, true, [BUY])]
  }

  /** One signal, no position of the bar's symbol open before it, and equity: a position is opened. */
  lemma AllInOpens(s: Sim, bar: Bar)
    requires s.pending == [] && !s.raised && s.risk.currentPct == 100.0 && s.equity == 100.0 && |s.open| <= 1
    requires bar.featuresReady && bar.signals == [BUY] && bar.atr == 10.0 && bar.close == 100.0
    requires s.open != [] ==> s.open[0].ticket.riskAmount == 100.0
    ensures var next := EntrySpec(ALL_IN, CORRELATED, s, bar);
            && !next.raised && next.equity == 100.0 && next.risk == s.risk && next.pending == []
            && |next.open| == |s.open| + 1
            && next.open[..|s.open|] == s.open
            && var p := next.open[|s.open|];
               && p.ticket.symbol == bar.symbol && p.ticket.isLong && p.ticket.entry == 100.0 && p.stop == 90.0
               && p.ticket.riskDistance == 10.0 && p.ticket.riskAmount == 100.0 && p.ticket.baseRiskPct == 100.0
  {
    var cfg, mk := ALL_IN, CORRELATED;
    var e := EntryOf(cfg, BUY, bar);
    EntryIsOneOpen(cfg, mk, s, bar);
    var xs := Tickets(s.open);
    if s.open != [] {
      assert xs[1..] == [];
      assert Pct(xs[0], 100.0) == 100.0;
    }
    assert OpenPct(xs, 100.0, Group(mk, bar.symbol)) <= 100.0;
    assert EntryPrice(mk, e, bar, mk.slip(s.draws)) == 100.0;
    assert StopPrice(mk, e, 100.0) == Some(90.0);
    assert Judge(cfg, mk, s, e.symbol, "s", 100.0) == Admit;
  }

  lemma StopTakesAll(s: Sim, bar: Bar)
    requires |s.open| == 2 && s.equity == 100.0 && bar.symbol == s.open[0].ticket.symbol != s.open[1].ticket.symbol
    requires var p := s.open[0];
             && p.ticket.isLong && p.ticket.entry == 100.0 && p.stop == 90.0 && p.ticket.riskDistance == 10.0
             && p.ticket.riskAmount == 100.0 && p.ticket.baseRiskPct == 100.0
    requires bar.low == 90.0 && s.risk == Risk(100.0, 0, 0)
    ensures var next := ExitSpec(ALL_IN, CORRELATED, s, bar, 0);
            && next.open == [s.open[1]] && next.equity == 0.0 && next.raised == s.raised && next.pending == s.pending
            && next.risk.currentPct == 100.0
  {
    var next := ExitTurn(ALL_IN, CORRELATED, s, bar, 0);
    assert ExitPrice(s.open[0], bar) == Some(90.0);
    assert next.open == [s.open[1]] && next.equity == 0.0;
    assert ExitSpec(ALL_IN, CORRELATED, next, bar, 0) == ExitSpec(ALL_IN, CORRELATED, next, bar, 1) == next;
  }

  lemma NoEquityRaises(s: Sim, bar: Bar)
    requires |s.open| == 1 && s.pending == [] && !s.raised && s.equity == 0.0 && s.risk.currentPct == 100.0
    requires bar.featuresReady && bar.signals == [BUY] && bar.atr == 10.0 && s.open[0].ticket.symbol != bar.symbol
    ensures EntrySpec(ALL_IN, CORRELATED, s, bar).raised
  {
    var cfg, mk := ALL_IN, CORRELATED;
    var e := EntryOf(cfg, BUY, bar);
    EntryIsOneOpen(cfg, mk, s, bar);
    assert Tickets(s.open)[1..] == [];
    assert StopPrice(mk, e, bar.close) == Some(bar.close - 10.0);
    assert Judge(cfg, mk, s, e.symbol, "s", 100.0) == Raise;
  }

  lemma NoneToExit(cfg: Config, mk: Market, s: Sim, bar: Bar)
    requires |s.open| <= 1 && forall p | p in s.open :: p.ticket.symbol != bar.symbol
    ensures ExitSpec(cfg, mk, s, bar, 0) == s
  {
    if s.open == [] {
    } else {
      assert s.open[0] in s.open;
      assert ExitSpec(cfg, mk, s, bar, 0) == ExitSpec(cfg, mk, s, bar, 1);
    }
  }

  /** A bar without features, with nothing open and nothing pending, adds a point to the curve and nothing else. */
  lemma QuietBar(cfg: Config, mk: Market, s: Sim, bar: Bar)
    requires s.open == [] && s.pending == [] && !s.raised && !bar.featuresReady
    ensures BarSpec(cfg, mk, s, bar) == s.(curve := s.curve + [s.equity])
  {
    NoneToExit(cfg, mk, s, bar);
    assert EntriesFor([], bar.symbol, false) == EntriesFor([], bar.symbol, true) == [];
    assert s.(pending := []) == s;
  }

  lemma {:induction false} QuietRun(cfg: Config, mk: Market, bars: seq<Bar>)
    requires forall b | b in bars :: !b.featuresReady
    ensures After(cfg, mk, bars).(curve := []) == Start(cfg).(curve := [])
  {
    hide BarSpec;
    if bars == [] {
    } else {
      var prev, bar := bars[..|bars| - 1], bars[|bars| - 1];
      QuietRun(cfg, mk, prev);
      var s := After(cfg, mk, prev);
      assert bar in bars && s == Start(cfg).(curve := s.curve);
      QuietBar(cfg, mk, s, bar);
    }
  }

  lemma AfterSnoc(cfg: Config, mk: Market, bars: seq<Bar>, bar: Bar)
    ensures After(cfg, mk, bars + [bar]) == BarSpec(cfg, mk, After(cfg, mk, bars), bar)
  {
    assert (bars + [bar])[..|bars|] == bars;
  }

  /** With the correlation cap, after any warm-up, a run does divide by zero: equity is gone while a correlated
      position is open. */
  lemma CorrelatedRunRaises(quiet: seq<Bar>, ts: int)
    requires forall b | b in quiet :: !b.featuresReady
    ensures RunSpec(ALL_IN, CORRELATED, quiet + StoppedOut(ts)).raised
  {
    hide EntrySpec, ExitSpec, After;
    var cfg, mk, last := ALL_IN, CORRELATED, StoppedOut(ts);
    QuietRun(cfg, mk, quiet);
    var start := After(cfg, mk, quiet);
    NoneToExit(cfg, mk, start, last[0]);
    AllInOpens(start, last[0]);
    AfterSnoc(cfg, mk, quiet, last[0]);
    var first := After(cfg, mk, quiet + [last[0]]);
    NoneToExit(cfg, mk, first, last[1]);
    AllInOpens(first, last[1]);
    AfterSnoc(cfg, mk, quiet + [last[0]], last[1]);
    var second := After(cfg, mk, quiet + [last[0]] + [last[1]]);
    StopTakesAll(second, last[2]);
    NoEquityRaises(ExitSpec(cfg, mk, second, last[2], 0), last[2]);
    AfterSnoc(cfg, mk, quiet + [last[0]] + [last[1]], last[2]);
    assert quiet + [last[0]] + [last[1]] + [last[2]] == quiet + last;
  }

  function Count(bars: seq<Bar>, symbol: string): nat {
    if bars == [] then 0 else (if bars[0].symbol == symbol then 1 else 0) + Count(bars[1..], symbol)
  }

  lemma {:induction false} CountAppend(a: seq<Bar>, b: seq<Bar>, symbol: string)
    ensures Count(a + b, symbol) == Count(a, symbol) + Count(b, symbol)
  {
    if a == [] {
      assert a + b == b;
    } else {
      assert (a + b)[1..] == a[1..] + b;
      CountAppend(a[1..], b, symbol);
    }
  }

  /** Correlations are taken between symbols with more than ten returns each. */
  predicate EnoughReturns(bars: seq<Bar>, a: string, b: string) {
    a != b && Count(bars, a) - 1 > 10 && Count(bars, b) - 1 > 10
  }

  function Quiet(ts: int, symbol: string): Bar {
    var close := if ts % 2 == 0 then 100.0 else 101.0;
    Bar(ts, symbol, None, close, close, close, 10.0, false, [])
  }

  // Two symbols that move up and down together.
  function WarmUp(n: nat): seq<Bar> {
    if n == 0 then [] else WarmUp(n - 1) + [Quiet(n - 1, "EURUSD"), Quiet(n - 1, "GBPUSD")]
  }

  /** The two symbols take turns, with the same close at the same time. */
  ghost predicate Twins(bars: seq<Bar>, n: nat) {
    2 * n <= |bars| && forall k | 0 <= k < n :: Pair(bars[2 * k], bars[2 * k + 1])
  }

  ghost predicate Pair(a: Bar, b: Bar) {
    a.symbol == "EURUSD" && b.symbol == "GBPUSD" && a.ts == b.ts && a.close == b.close
  }

  lemma {:induction false} WarmUpTwins(n: nat)
    ensures |WarmUp(n)| == 2 * n && Twins(WarmUp(n), n) && forall b | b in WarmUp(n) :: !b.featuresReady
  {
    hide Pair;
    if n == 0 {
    } else {
      WarmUpTwins(n - 1);
      assert Pair(Quiet(n - 1, "EURUSD"), Quiet(n - 1, "GBPUSD")) by { PairOf(n - 1); }
    }
  }

  lemma PairOf(ts: int)
    ensures Pair(Quiet(ts, "EURUSD"), Quiet(ts, "GBPUSD"))
  {}

  lemma CountNone(symbol: string)
    ensures Count([], symbol) == 0
  {}

  lemma CountPair(a: Bar, b: Bar, symbol: string)
    ensures Count([a, b], symbol) == (if a.symbol == symbol then 1 else 0) + if b.symbol == symbol then 1 else 0
  {
    assert [a, b][1..] == [b] && [b][1..] == [];
    assert Count([], symbol) == 0;
    assert Count([b], symbol) == if b.symbol == symbol then 1 else 0;
  }

  lemma {:induction false} WarmUpCounts(n: nat)
    ensures Count(WarmUp(n), "EURUSD") == Count(WarmUp(n), "GBPUSD") == n
  {
    hide Count;
    if n == 0 {
      CountNone("EURUSD");
      CountNone("GBPUSD");
    } else {
      WarmUpCounts(n - 1);
      var a, b := Quiet(n - 1, "EURUSD"), Quiet(n - 1, "GBPUSD");
      CountAppend(WarmUp(n - 1), [a, b], "EURUSD");
      CountAppend(WarmUp(n - 1), [a, b], "GBPUSD");
      CountPair(a, b, "EURUSD");
      CountPair(a, b, "GBPUSD");
    }
  }

  /** Such a run has correlations: both symbols have enough returns, and the same ones at the same times, but for
      the last bar, that only one of them has. */
  lemma WarmRunRaises(n: nat)
    requires n >= 11
    ensures var bars := WarmUp(n) + StoppedOut(n);
            && RunSpec(ALL_IN, CORRELATED, bars).raised && EnoughReturns(bars, "EURUSD", "GBPUSD")
            && |bars| == 2 * n + 3 && Twins(bars, n + 1) && bars[0].close != bars[2].close
  {
    hide RunSpec, Count, Twins, Quiet;
    var bars, last := WarmUp(n) + StoppedOut(n), StoppedOut(n);
    WarmUpTwins(n);
    WarmUpCounts(n);
    CorrelatedRunRaises(WarmUp(n), n);
    forall symbol ensures Count(bars, symbol) >= Count(WarmUp(n), symbol) + Count([last[0], last[1]], symbol) {
      assert last == [last[0], last[1]] + [last[2]];
      CountAppend(WarmUp(n), last, symbol);
      CountAppend([last[0], last[1]], [last[2]], symbol);
    }
    CountPair(last[0], last[1], "EURUSD");
    CountPair(last[0], last[1], "GBPUSD");
    LastTwins(WarmUp(n), n);
    FirstCloses(n);
  }

  lemma LastTwins(bars: seq<Bar>, n: nat)
    requires |bars| == 2 * n && Twins(bars, n)
    ensures Twins(bars + StoppedOut(n), n + 1)
  {
    hide Pair;
    var last := StoppedOut(n);
    assert Pair(last[0], last[1]) by { LastPair(n); }
    assert (bars + last)[2 * n] == last[0] && (bars + last)[2 * n + 1] == last[1];
  }

  lemma LastPair(ts: int)
    ensures Pair(StoppedOut(ts)[0], StoppedOut(ts)[1])
  {}

  lemma {:induction false} FirstCloses(n: nat)
    requires n >= 2
    ensures |WarmUp(n)| >= 4 && WarmUp(n)[0].close == 100.0 && WarmUp(n)[2].close == 101.0
  {
    if n == 2 {
      assert WarmUp(1) == [] + [Quiet(0, "EURUSD"), Quiet(0, "GBPUSD")] by { assert WarmUp(0) == []; }
    } else {
      FirstCloses(n - 1);
    }
  }
}
