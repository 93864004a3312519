/** Where every position comes from, and when an attempt opens one. */
module PaperEntries {
  import opened Values
  import opened Paper
  import opened PaperInvariants

  /* ---- the parts of an attempt ---- */

  /** Six letters name two currencies, and two symbols overlap when they share one, in whatever case. */
  lemma OverlapIff(a: string, b: string)
    requires |a| == 6 && |b| == 6
    ensures Overlaps(a, b) <==>
            Upper(a[..3]) in [Upper(b[..3]), Upper(b[3..6])] || Upper(a[3..6]) in [Upper(b[..3]), Upper(b[3..6])]
    ensures forall c :: Touches(a, c) <==> c == Upper(a[..3]) || c == Upper(a[3..6])
  {
    hide Upper;
  }

  /** Shorter names have a first currency from three letters on, and no second one. */
  lemma ShortSymbols(a: string, b: string)
    requires |a| < 6
    ensures |a| < 3 ==> !Overlaps(a, b) && !Overlaps(b, a)
    ensures |a| >= 3 && |b| < 6 ==> (Overlaps(a, b) <==> |b| >= 3 && Upper(a[..3]) == Upper(b[..3]))
  {
    hide Upper;
  }

  lemma UpperExact(s: string, i: nat)
    requires i < |s|
    ensures |Upper(s)| == |s| && Upper(s)[i] == if 'a' <= s[i] <= 'z' then (s[i] as int - 32) as char else s[i]
  {}

  /** Not above the cap, or there is none: an absent cap and one of zero bind nothing. */
  predicate Below(x: real, cap: Option<real>) { Unset(cap) || x <= cap.value }

  predicate Unset(cap: Option<real>) { cap.None? || cap.value == 0.0 }

  /** An entry is admitted exactly when nothing is above its cap, with the new percentage added: the open risk of all
      positions (both total caps, and both effective ones, those of the strategy first), of those that share a
      currency (bucket cap), and, on the current equity, of those with a correlation of 0.7 or more; and when neither
      the positions nor those that share a currency are at the strategy's limit. */
  lemma AdmitsIff(cfg: Config, mk: Market, s: Sim, symbol: string, strategy: string, newPct: real,
                  near: string -> bool)
    requires cfg.baseEquity != 0.0 && forall other :: near(other) <==> mk.corr(symbol, other) >= 0.7
    ensures Judge(cfg, mk, s, symbol, strategy, newPct) == Admit <==>
            var xs := Tickets(s.open);
            var total := OpenPct(xs, cfg.baseEquity, Any()) + newPct;
            var limits := if strategy in cfg.limits then cfg.limits[strategy]
                          else Limits(cfg.basePerTradePct, None, None, None, None);
            var hard := if Unset(limits.rEffHard) then cfg.rEffHard else limits.rEffHard;
            var soft := if Unset(limits.rEffSoft) then cfg.rEffSoft else limits.rEffSoft;
            && Below(total, cfg.totalHard) && Below(total, cfg.totalSoft) && Below(total, hard) && Below(total, soft)
            && Below(OpenPct(xs, cfg.baseEquity, Bucket(symbol)) + newPct, cfg.bucketCap)
            && (mk.corrKnown && !Unset(cfg.groupCap) ==>
                  if s.equity == 0.0 then OpenCount(xs, near) == 0 && newPct <= cfg.groupCap.value
                  else OpenPct(xs, s.equity, near) + newPct <= cfg.groupCap.value)
            && (limits.maxOverall.Some? ==> |s.open| < limits.maxOverall.value)
            && (limits.maxBucket.Some? ==> OpenCount(xs, Bucket(symbol)) < limits.maxBucket.value)
  {
    hide OpenPct, OpenCount;
    SelectAlike(Tickets(s.open), s.equity, near, Group(mk, symbol));
  }

  lemma {:induction false} SelectAlike(tickets: seq<Ticket>, equity: real, a: string -> bool, b: string -> bool)
    requires forall symbol :: a(symbol) == b(symbol)
    ensures OpenCount(tickets, a) == OpenCount(tickets, b)
    ensures equity != 0.0 ==> OpenPct(tickets, equity, a) == OpenPct(tickets, equity, b)
  {
    if tickets != [] { SelectAlike(tickets[1..], equity, a, b); }
  }

  /** The share of a strategy: its own, unless it has none or zero. */
  lemma ShareExact(cfg: Config, strategy: string)
    ensures StrategyRiskPct(cfg, strategy) ==
            if strategy in cfg.limits && cfg.limits[strategy].perTradePct != 0.0 then cfg.limits[strategy].perTradePct
            else cfg.basePerTradePct
  {}

  /** The entry is the price it was given, else the open of the bar, else its close; spread and slippage come on top
      for a long, and off for a short. */
  lemma EntryPriceExact(mk: Market, e: Pending, bar: Bar, slip: real)
    ensures var base := match (e.basePrice, bar.open)
                        case (Some(p), _) => p
                        case (None, Some(p)) => p
                        case (None, None) => bar.close;
            var costs := mk.spread(e.symbol, bar.ts) + slip;
            EntryPrice(mk, e, bar, slip) == if e.signal.isLong then base + costs else base - costs
  {}

  /** The stop is a volatility away from the entry, or, for a signal with a level, its buffer beyond that: the buffer it
      asks for if that is positive, else the larger of 0.08 and three per cent of the volatility. */
  lemma StopExact(mk: Market, e: Pending, entryPrice: real)
    ensures e.signal.level.None? ==>
              var (stop, away) := (StopPrice(mk, e, entryPrice), e.atr * mk.atrStopMult(e.signal.strategy));
              && (stop.None? <==> away <= 0.0)
              && (stop.Some? ==> stop.value == if e.signal.isLong then entryPrice - away else entryPrice + away)
    ensures e.signal.level.Some? ==>
              var least := if e.atr * 0.03 > 0.08 then e.atr * 0.03 else 0.08;
              var away := if e.signal.buffer.Some? && e.signal.buffer.value > 0.0 then e.signal.buffer.value else least;
              && StopPrice(mk, e, entryPrice).Some?
              && StopPrice(mk, e, entryPrice).value ==
                 if e.signal.isLong then e.signal.level.value - away else e.signal.level.value + away
  {}

  /** Trading hours from one to another, across midnight when the first is later; always without them. */
  lemma SessionExact(cfg: Config, hour: int)
    ensures cfg.session == None ==> InSession(cfg, hour)
    ensures cfg.session.Some? ==>
            var (from, to) := cfg.session.value;
            InSession(cfg, hour) <==> (hour >= from && hour <= to) || (from > to && (hour >= from || hour <= to))
  {}

  lemma NothingDue(symbol: string)
    ensures EntriesFor([], symbol, true) == EntriesFor([], symbol, false) == []
  {}

  lemma EntriesFirst(a: seq<Pending>, symbol: string, same: bool)
    requires a != []
    ensures EntriesFor(a, symbol, same) ==
            (if (a[0].symbol == symbol) == same then [a[0]] else []) + EntriesFor(a[1..], symbol, same)
  {}

  lemma {:induction false} DueAreOfSymbol(pending: seq<Pending>, symbol: string)
    ensures multiset(pending) == multiset(EntriesFor(pending, symbol, true))
            + multiset(EntriesFor(pending, symbol, false))
    ensures forall e :: e in EntriesFor(pending, symbol, true) <==> e in pending && e.symbol == symbol
    ensures forall e :: e in EntriesFor(pending, symbol, false) <==> e in pending && e.symbol != symbol
  {
    hide EntriesFor;
    NothingDue(symbol);
    if pending == [] {
    } else {
      EntriesFirst(pending, symbol, true);
      EntriesFirst(pending, symbol, false);
      DueAreOfSymbol(pending[1..], symbol);
      assert pending == [pending[0]] + pending[1..];
    }
  }

  /** The last close of a symbol is the close of its last bar. */
  lemma {:induction false} LastCloseIs(bars: seq<Bar>, k: nat)
    requires k < |bars| && forall j | k < j < |bars| :: bars[j].symbol != bars[k].symbol
    ensures LastClose(bars, bars[k].symbol) == Some(bars[k].close)
  {
    if k == |bars| - 1 {
    } else {
      LastCloseIs(bars[..|bars| - 1], k);
    }
  }

  /* ---- one attempt ---- */

  /** The state changes only where the strategy may enter; then a slippage is drawn, and a position opened exactly when
      there is a stop, apart from the entry, and the checks admit it. */
  lemma OpensIff(cfg: Config, mk: Market, s: Sim, e: Pending, bar: Bar)
    requires !s.raised
    ensures var (next, sig) := (OpenSpec(cfg, mk, s, e, bar), e.signal);
            var entry := EntryPrice(mk, e, bar, mk.slip(s.draws));
            var stop := StopPrice(mk, e, entry);
            var share := CheckedPct(cfg, s, e);
            if !mk.entryAllowed(sig.strategy, sig.isLong, bar.ts) then next == s
            else
              && next.draws == s.draws + 1 && next.equity == s.equity && next.risk == s.risk
              && next.pending == s.pending
              && next.trades == s.trades && next.curve == s.curve
              && if stop.Some? && stop.value != entry && Judge(cfg, mk, s, e.symbol, sig.strategy, share) == Admit then
                   && !next.raised && |next.open| == |s.open| + 1 && next.open[..|s.open|] == s.open
                   && next.open[|s.open|].stop == stop.value
                   && next.admitted == s.admitted + [next.open[|s.open|].ticket]
                   && Fits(cfg, mk, s, e, bar, next.open[|s.open|].ticket, entry, stop.value)
                 else next.open == s.open && next.admitted == s.admitted
  {
    hide Judge, EntryPrice, StopPrice;
  }

  /** What a new ticket says. */
  ghost predicate Fits(cfg: Config, mk: Market, s: Sim, e: Pending, bar: Bar, t: Ticket, entry: real, stop: real) {
    && t.strategy == e.signal.strategy && t.symbol == e.symbol && t.isLong == e.signal.isLong && t.entry == entry
    && t.riskDistance == (if entry > stop then entry - stop else stop - entry)
    && t.target == (if t.isLong then entry + cfg.targetR * t.riskDistance else entry - cfg.targetR * t.riskDistance)
    && t.expireAt == bar.ts + mk.ttl(t.strategy) && t.bar == |s.curve|
    && t.baseRiskPct == StrategyRiskPct(cfg, t.strategy)
    && t.riskAmount == (if cfg.fixedRisk then cfg.baseEquity else s.equity) * (CheckedPct(cfg, s, e) / 100.0)
  }

  /* ---- every run ---- */

  /** The signal an entry comes from: which of the bars gave it. */
  datatype Origin = Origin(k: nat, sig: Signal)

  /** A bar within trading hours and with features gave the signal, and the entry is of it. */
  ghost predicate Gave(cfg: Config, mk: Market, bars: seq<Bar>, n: nat, e: Pending, o: Origin)
    requires n <= |bars|
  {
    && o.k < n && bars[o.k].featuresReady && o.sig in bars[o.k].signals && InSession(cfg, mk.hour(bars[o.k].ts))
    && e.symbol == bars[o.k].symbol && e.signal == o.sig && e.atr == bars[o.k].atr
    && e.basePrice == if cfg.nextBarEntry then None else Some(bars[o.k].close)
  }

  ghost predicate Given(cfg: Config, mk: Market, bars: seq<Bar>, n: nat, e: Pending)
    requires n <= |bars|
  {
    exists o :: Gave(cfg, mk, bars, n, e, o)
  }

  /** The ticket was opened on a bar of its symbol within trading hours, for a signal of that bar, or, with entry on
      the next bar, of an earlier one of the symbol; where its strategy may enter, at the price of such an entry with
      some slippage, and away from the stop of such an entry by its risk. */
  ghost predicate OpenedFor(cfg: Config, mk: Market, bars: seq<Bar>, t: Ticket, e: Pending, slip: nat) {
    && 1 <= t.bar <= |bars|
    && var bar := bars[t.bar - 1];
    && bar.symbol == t.symbol == e.symbol && InSession(cfg, mk.hour(bar.ts))
    && Given(cfg, mk, bars, if cfg.nextBarEntry then t.bar - 1 else t.bar, e)
    && (!cfg.nextBarEntry ==> e.signal in bar.signals)
    && t.strategy == e.signal.strategy && t.isLong == e.signal.isLong && mk.entryAllowed(t.strategy, t.isLong, bar.ts)
    && t.entry == EntryPrice(mk, e, bar, mk.slip(slip)) && t.expireAt == bar.ts + mk.ttl(t.strategy)
    && StopPrice(mk, e, t.entry).Some? && t.riskDistance == Abs(t.entry - StopPrice(mk, e, t.entry).value)
    && t.target == t.entry + Signed(t.isLong, cfg.targetR * t.riskDistance)
  }

  ghost predicate Opened(cfg: Config, mk: Market, bars: seq<Bar>, t: Ticket) {
    exists e, slip :: OpenedFor(cfg, mk, bars, t, e, slip)
  }

  ghost predicate AllOpened(cfg: Config, mk: Market, bars: seq<Bar>, tickets: seq<Ticket>) {
    forall t | t in tickets :: Opened(cfg, mk, bars, t)
  }

  ghost predicate AllGiven(cfg: Config, mk: Market, bars: seq<Bar>, n: nat, pending: seq<Pending>)
    requires n <= |bars|
  {
    forall e | e in pending :: Given(cfg, mk, bars, n, e)
  }

  lemma GivenLater(cfg: Config, mk: Market, bars: seq<Bar>, more: seq<Bar>, n: nat, m: nat, e: Pending)
    requires n <= |bars| && bars <= more && n <= m <= |more| && Given(cfg, mk, bars, n, e)
    ensures Given(cfg, mk, more, m, e)
  {
    var o :| Gave(cfg, mk, bars, n, e, o);
    assert more[o.k] == bars[o.k];
    assert Gave(cfg, mk, more, m, e, o);
  }

  lemma OpenedLater(cfg: Config, mk: Market, bars: seq<Bar>, more: seq<Bar>, t: Ticket)
    requires bars <= more && Opened(cfg, mk, bars, t)
    ensures Opened(cfg, mk, more, t)
  {
    hide EntryPrice, StopPrice, Given, InSession;
    var e, slip :| OpenedFor(cfg, mk, bars, t, e, slip);
    var n := if cfg.nextBarEntry then t.bar - 1 else t.bar;
    GivenLater(cfg, mk, bars, more, n, n, e);
    assert more[t.bar - 1] == bars[t.bar - 1];
    assert OpenedFor(cfg, mk, more, t, e, slip);
  }

  /** An attempt on the last bar, for an entry given in time, leaves only tickets with an origin. */
  lemma AttemptHasOrigin(cfg: Config, mk: Market, s: Sim, e: Pending, bars: seq<Bar>)
    requires bars != [] && e.symbol == bars[|bars| - 1].symbol && |s.curve| == |bars|
    requires InSession(cfg, mk.hour(bars[|bars| - 1].ts)) && AllOpened(cfg, mk, bars, s.admitted)
    requires Given(cfg, mk, bars, if cfg.nextBarEntry then |bars| - 1 else |bars|, e)
    requires !cfg.nextBarEntry ==> e.signal in bars[|bars| - 1].signals
    ensures var next := OpenSpec(cfg, mk, s, e, bars[|bars| - 1]);
            AllOpened(cfg, mk, bars, next.admitted) && next.curve == s.curve && next.pending == s.pending
  {
    hide Judge, EntryPrice, StopPrice, Given, InSession, Opened;
    var bar := bars[|bars| - 1];
    var next := OpenSpec(cfg, mk, s, e, bar);
    if next.admitted != s.admitted {
      OpensIff(cfg, mk, s, e, bar);
      var t := next.admitted[|s.admitted|];
      assert next.admitted == s.admitted + [t];
      FitsIsOpened(cfg, mk, s, e, bars, t);
    }
  }

  lemma FitsIsOpened(cfg: Config, mk: Market, s: Sim, e: Pending, bars: seq<Bar>, t: Ticket)
    requires bars != [] && e.symbol == bars[|bars| - 1].symbol && |s.curve| == |bars|
    requires InSession(cfg, mk.hour(bars[|bars| - 1].ts))
    requires Given(cfg, mk, bars, if cfg.nextBarEntry then |bars| - 1 else |bars|, e)
    requires !cfg.nextBarEntry ==> e.signal in bars[|bars| - 1].signals
    requires mk.entryAllowed(e.signal.strategy, e.signal.isLong, bars[|bars| - 1].ts)
    requires var (bar, entry) := (bars[|bars| - 1], EntryPrice(mk, e, bars[|bars| - 1], mk.slip(s.draws)));
             StopPrice(mk, e, entry).Some? && Fits(cfg, mk, s, e, bar, t, entry, StopPrice(mk, e, entry).value)
    ensures Opened(cfg, mk, bars, t)
  {
    hide EntryPrice, StopPrice, Given, InSession, StrategyRiskPct, CheckedPct;
    assert OpenedFor(cfg, mk, bars, t, e, s.draws);
  }

  lemma {:induction false} PendingHasOrigin(cfg: Config, mk: Market, s: Sim, entries: seq<Pending>, bars: seq<Bar>)
    requires bars != [] && |s.curve| == |bars| && InSession(cfg, mk.hour(bars[|bars| - 1].ts))
    requires AllOpened(cfg, mk, bars, s.admitted) && AllGiven(cfg, mk, bars, |bars| - 1, entries)
    requires (entries != [] ==> cfg.nextBarEntry) && forall e | e in entries :: e.symbol == bars[|bars| - 1].symbol
    ensures var next := OpenAll(cfg, mk, s, entries, bars[|bars| - 1]);
            AllOpened(cfg, mk, bars, next.admitted) && next.curve == s.curve && next.pending == s.pending
    decreases |entries|
  {
    hide OpenSpec, AllOpened, Given, InSession;
    if entries == [] {
    } else {
      AttemptHasOrigin(cfg, mk, s, entries[0], bars);
      PendingHasOrigin(cfg, mk, OpenSpec(cfg, mk, s, entries[0], bars[|bars| - 1]), entries[1..], bars);
    }
  }

  lemma {:induction false} SignalsHaveOrigin(cfg: Config, mk: Market, s: Sim, signals: seq<Signal>, bars: seq<Bar>)
    requires bars != [] && |s.curve| == |bars| && InSession(cfg, mk.hour(bars[|bars| - 1].ts))
    requires bars[|bars| - 1].featuresReady && forall sig | sig in signals :: sig in bars[|bars| - 1].signals
    requires AllOpened(cfg, mk, bars, s.admitted) && AllGiven(cfg, mk, bars, |bars|, s.pending)
    requires s.pending != [] ==> cfg.nextBarEntry
    ensures var next := SignalsSpec(cfg, mk, s, signals, bars[|bars| - 1]);
            && AllOpened(cfg, mk, bars, next.admitted) && AllGiven(cfg, mk, bars, |bars|, next.pending)
            && (next.pending != [] ==> cfg.nextBarEntry)
    decreases |signals|
  {
    hide OpenSpec, AllOpened, Given, InSession;
    if signals == [] {
    } else {
      var bar := bars[|bars| - 1];
      var e := EntryOf(cfg, signals[0], bar);
      assert signals[0] in signals && forall sig | sig in signals[1..] :: sig in signals;
      assert Given(cfg, mk, bars, |bars|, e) by { SignalGives(cfg, mk, bars, signals[0]); }
      if !cfg.nextBarEntry { AttemptHasOrigin(cfg, mk, s, e, bars); }
      SignalsHaveOrigin(cfg, mk, SignalSpec(cfg, mk, s, signals[0], bar), signals[1..], bars);
    }
  }

  lemma SignalGives(cfg: Config, mk: Market, bars: seq<Bar>, sig: Signal)
    requires bars != [] && bars[|bars| - 1].featuresReady && sig in bars[|bars| - 1].signals
    requires InSession(cfg, mk.hour(bars[|bars| - 1].ts))
    ensures Given(cfg, mk, bars, |bars|, EntryOf(cfg, sig, bars[|bars| - 1]))
  {
    assert Gave(cfg, mk, bars, |bars|, EntryOf(cfg, sig, bars[|bars| - 1]), Origin(|bars| - 1, sig));
  }

  lemma EntriesHaveOrigin(cfg: Config, mk: Market, s: Sim, bars: seq<Bar>)
    requires bars != [] && |s.curve| == |bars| && AllOpened(cfg, mk, bars, s.admitted)
    requires AllGiven(cfg, mk, bars, |bars| - 1, s.pending) && (s.pending != [] ==> cfg.nextBarEntry)
    ensures var next := EntrySpec(cfg, mk, s, bars[|bars| - 1]);
            && AllOpened(cfg, mk, bars, next.admitted) && AllGiven(cfg, mk, bars, |bars|, next.pending)
            && (next.pending != [] ==> cfg.nextBarEntry)
  {
    hide AllOpened, Given, OpenAll, SignalsSpec, EntriesFor;
    var bar := bars[|bars| - 1];
    forall e | e in s.pending ensures Given(cfg, mk, bars, |bars|, e) {
      GivenLater(cfg, mk, bars, bars, |bars| - 1, |bars|, e);
    }
    DueAreOfSymbol(s.pending, bar.symbol);
    if InSession(cfg, mk.hour(bar.ts)) {
      var rest, due := EntriesFor(s.pending, bar.symbol, false), EntriesFor(s.pending, bar.symbol, true);
      if s.pending == [] { NothingDue(bar.symbol); }
      PendingHasOrigin(cfg, mk, s.(pending := rest), due, bars);
      var s1 := OpenAll(cfg, mk, s.(pending := rest), due, bar);
      if !s1.raised && bar.featuresReady { SignalsHaveOrigin(cfg, mk, s1, bar.signals, bars); }
    }
  }

  lemma ExitKeepsOrigins(cfg: Config, mk: Market, s: Sim, bar: Bar)
    ensures var next := ExitSpec(cfg, mk, s, bar, 0);
            next.admitted == s.admitted && next.pending == s.pending && next.curve == s.curve
  {
    hide ExitTurn;
    var inv := (x: Sim) => x.admitted == s.admitted && x.pending == s.pending && x.curve == s.curve;
    forall x: Sim, i: nat | inv(x) && i < |x.open| ensures inv(ExitTurn(cfg, mk, x, bar, i)) {
      TurnKeepsOrigins(cfg, mk, x, bar, i);
    }
    ExitKeeps(cfg, mk, inv, s, bar, 0);
  }

  lemma TurnKeepsOrigins(cfg: Config, mk: Market, s: Sim, bar: Bar, i: nat)
    requires i < |s.open|
    ensures var next := ExitTurn(cfg, mk, s, bar, i);
            next.admitted == s.admitted && next.pending == s.pending && next.curve == s.curve
  {
    hide ExitPrice, TradeOf, Trailed;
  }

  /** In every run every position ever opened has such an origin. */
  lemma {:induction false} EveryEntry(cfg: Config, mk: Market, bars: seq<Bar>)
    ensures var s := After(cfg, mk, bars);
            && AllOpened(cfg, mk, bars, s.admitted) && AllGiven(cfg, mk, bars, |bars|, s.pending)
            && (s.pending != [] ==> cfg.nextBarEntry)
    decreases |bars|
  {
    if bars == [] {
    } else {
      hide AllOpened, Given, EntrySpec, ExitSpec;
      var prev, bar := bars[..|bars| - 1], bars[|bars| - 1];
      var s := After(cfg, mk, prev);
      EveryEntry(cfg, mk, prev);
      AllOpenedLater(cfg, mk, prev, bars, s.admitted);
      forall e | e in s.pending ensures Given(cfg, mk, bars, |bars| - 1, e) && Given(cfg, mk, bars, |bars|, e) {
        GivenLater(cfg, mk, prev, bars, |prev|, |bars| - 1, e);
        GivenLater(cfg, mk, prev, bars, |prev|, |bars|, e);
      }
      if !s.raised {
        AfterPoints(cfg, mk, prev);
        ExitKeepsOrigins(cfg, mk, s, bar);
        EntriesHaveOrigin(cfg, mk, ExitSpec(cfg, mk, s, bar, 0), bars);
      }
    }
  }

  lemma AllOpenedLater(cfg: Config, mk: Market, bars: seq<Bar>, more: seq<Bar>, tickets: seq<Ticket>)
    requires bars <= more && AllOpened(cfg, mk, bars, tickets)
    ensures AllOpened(cfg, mk, more, tickets)
  {
    hide Opened;
    forall t | t in tickets ensures Opened(cfg, mk, more, t) { OpenedLater(cfg, mk, bars, more, t); }
  }
}
