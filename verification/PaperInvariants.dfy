/** Exposure caps, position limits and conservation, for every run of the simulator. */
module PaperInvariants {
  import opened Values
  import opened Paper

  /* ---- what every run keeps ---- */

  /** `inv` survives every attempt to open a position on these bars. */
  ghost predicate KeptByEntries(cfg: Config, mk: Market, inv: Sim -> bool, bars: seq<Bar>) {
    && (forall s, e: Pending, bar | bar in bars && e.symbol == bar.symbol && inv(s) ::
          inv(OpenSpec(cfg, mk, s, e, bar)))
    && (forall s, pending: seq<Pending> | inv(s) :: inv(s.(pending := pending)))
  }

  /** `inv` survives every turn of the exit loop on these bars. */
  ghost predicate KeptByExits(cfg: Config, mk: Market, inv: Sim -> bool, bars: seq<Bar>) {
    forall s: Sim, bar, i: nat | bar in bars && inv(s) && i < |s.open| :: inv(ExitTurn(cfg, mk, s, bar, i))
  }

  /** `inv` survives each thing the event loop does on these bars. */
  ghost predicate Kept(cfg: Config, mk: Market, inv: Sim -> bool, bars: seq<Bar>) {
    && KeptByEntries(cfg, mk, inv, bars) && KeptByExits(cfg, mk, inv, bars)
    && forall s | inv(s) :: inv(Marked(s))
  }

  lemma {:induction false} ExitKeeps(cfg: Config, mk: Market, inv: Sim -> bool, s: Sim, bar: Bar, i: nat)
    requires KeptByExits(cfg, mk, inv, [bar]) && inv(s) && i <= |s.open|
    ensures inv(ExitSpec(cfg, mk, s, bar, i))
    decreases |s.open| - i
  {
    hide ExitTurn;
    if i == |s.open| {
    } else if s.open[i].ticket.symbol != bar.symbol {
      ExitKeeps(cfg, mk, inv, s, bar, i + 1);
    } else {
      var next := ExitTurn(cfg, mk, s, bar, i);
      assert bar in [bar];
      ExitTurnSize(cfg, mk, s, bar, i);
      ExitKeeps(cfg, mk, inv, next, bar, if |next.open| < |s.open| then i else i + 1);
    }
  }

  lemma ExitTurnSize(cfg: Config, mk: Market, s: Sim, bar: Bar, i: nat)
    requires i < |s.open|
    ensures |s.open| - 1 <= |ExitTurn(cfg, mk, s, bar, i).open| <= |s.open|
  {}

  lemma {:induction false} OpenAllKeeps(cfg: Config, mk: Market, inv: Sim -> bool, s: Sim, entries: seq<Pending>,
                                        bar: Bar)
    requires KeptByEntries(cfg, mk, inv, [bar]) && inv(s) && forall e | e in entries :: e.symbol == bar.symbol
    ensures inv(OpenAll(cfg, mk, s, entries, bar))
    decreases |entries|
  {
    hide OpenSpec;
    if entries == [] {
    } else {
      assert bar in [bar] && entries[0] in entries;
      OpenAllKeeps(cfg, mk, inv, OpenSpec(cfg, mk, s, entries[0], bar), entries[1..], bar);
    }
  }

  lemma {:induction false} SignalsKeep(cfg: Config, mk: Market, inv: Sim -> bool, s: Sim, signals: seq<Signal>,
                                       bar: Bar)
    requires KeptByEntries(cfg, mk, inv, [bar]) && inv(s)
    ensures inv(SignalsSpec(cfg, mk, s, signals, bar))
    decreases |signals|
  {
    hide OpenSpec;
    if signals == [] {
    } else {
      assert bar in [bar];
      SignalsKeep(cfg, mk, inv, SignalSpec(cfg, mk, s, signals[0], bar), signals[1..], bar);
    }
  }

  lemma {:induction false} EntriesForSymbol(pending: seq<Pending>, symbol: string)
    ensures forall e | e in EntriesFor(pending, symbol, true) :: e.symbol == symbol
  {
    if pending == [] {
    } else {
      EntriesForSymbol(pending[1..], symbol);
    }
  }

  lemma EntryKeeps(cfg: Config, mk: Market, inv: Sim -> bool, s: Sim, bar: Bar)
    requires KeptByEntries(cfg, mk, inv, [bar]) && inv(s)
    ensures inv(EntrySpec(cfg, mk, s, bar))
  {
    hide OpenAll, SignalsSpec, EntriesFor, OpenSpec;
    var s2 := s.(pending := EntriesFor(s.pending, bar.symbol, false));
    EntriesForSymbol(s.pending, bar.symbol);
    OpenAllKeeps(cfg, mk, inv, s2, EntriesFor(s.pending, bar.symbol, true), bar);
    SignalsKeep(cfg, mk, inv, OpenAll(cfg, mk, s2, EntriesFor(s.pending, bar.symbol, true), bar), bar.signals, bar);
  }

  lemma KeptOn(cfg: Config, mk: Market, inv: Sim -> bool, bars: seq<Bar>, some: seq<Bar>)
    requires Kept(cfg, mk, inv, bars) && forall bar | bar in some :: bar in bars
    ensures Kept(cfg, mk, inv, some)
  {
    hide OpenSpec, ExitTurn, Marked;
  }

  /** So every reachable state satisfies it. */
  lemma {:induction false} RunKeeps(cfg: Config, mk: Market, inv: Sim -> bool, bars: seq<Bar>)
    requires Kept(cfg, mk, inv, bars) && inv(Start(cfg))
    ensures inv(After(cfg, mk, bars))
    decreases |bars|
  {
    hide KeptByEntries, KeptByExits, EntrySpec, ExitSpec, Marked, Start;
    if bars == [] {
    } else {
      var bar := bars[|bars| - 1];
      var s := After(cfg, mk, bars[..|bars| - 1]);
      KeptOn(cfg, mk, inv, bars, bars[..|bars| - 1]);
      KeptOn(cfg, mk, inv, bars, [bar]);
      RunKeeps(cfg, mk, inv, bars[..|bars| - 1]);
      ExitKeeps(cfg, mk, inv, s, bar, 0);
      EntryKeeps(cfg, mk, inv, ExitSpec(cfg, mk, s, bar, 0), bar);
    }
  }

  /* ---- sums over open tickets ---- */

  lemma {:induction false} PctSnoc(xs: seq<Ticket>, t: Ticket, equity: real, sel: string -> bool)
    requires equity != 0.0
    ensures OpenPct(xs + [t], equity, sel) == OpenPct(xs, equity, sel) + if sel(t.symbol) then Pct(t, equity) else 0.0
  {
    hide Pct;
    if xs == [] {
      assert xs + [t] == [t];
    } else {
      assert (xs + [t])[1..] == xs[1..] + [t];
      PctSnoc(xs[1..], t, equity, sel);
    }
  }

  lemma {:induction false} PctWithout(xs: seq<Ticket>, i: nat, equity: real, sel: string -> bool)
    requires equity != 0.0 && i < |xs|
    ensures OpenPct(xs, equity, sel) ==
            OpenPct(Without(xs, i), equity, sel) + if sel(xs[i].symbol) then Pct(xs[i], equity) else 0.0
  {
    hide Pct;
    if i == 0 {
      assert Without(xs, 0) == xs[1..];
    } else {
      assert Without(xs, i)[1..] == Without(xs[1..], i - 1);
      PctWithout(xs[1..], i - 1, equity, sel);
    }
  }

  lemma {:induction false} CountSnoc(xs: seq<Ticket>, t: Ticket, sel: string -> bool)
    ensures OpenCount(xs + [t], sel) == OpenCount(xs, sel) + if sel(t.symbol) then 1 else 0
  {
    if xs == [] {
      assert xs + [t] == [t];
    } else {
      assert (xs + [t])[1..] == xs[1..] + [t];
      CountSnoc(xs[1..], t, sel);
    }
  }

  lemma {:induction false} CountWithout(xs: seq<Ticket>, i: nat, sel: string -> bool)
    requires i < |xs|
    ensures OpenCount(Without(xs, i), sel) <= OpenCount(xs, sel)
  {
    if i == 0 {
      assert Without(xs, 0) == xs[1..];
    } else {
      assert Without(xs, i)[1..] == Without(xs[1..], i - 1);
      CountWithout(xs[1..], i - 1, sel);
    }
  }

  ghost predicate Within(small: string -> bool, large: string -> bool) {
    forall x :: small(x) ==> large(x)
  }

  lemma {:induction false} PctWithin(xs: seq<Ticket>, equity: real, small: string -> bool, large: string -> bool)
    requires equity > 0.0 && Within(small, large) && forall t | t in xs :: t.riskAmount >= 0.0
    ensures OpenPct(xs, equity, small) <= OpenPct(xs, equity, large)
  {
    if xs == [] {
    } else {
      assert Pct(xs[0], equity) >= 0.0;
      PctWithin(xs[1..], equity, small, large);
    }
  }

  lemma {:induction false} CountWithin(xs: seq<Ticket>, small: string -> bool, large: string -> bool)
    requires Within(small, large)
    ensures OpenCount(xs, small) <= OpenCount(xs, large)
  {
    if xs == [] {
    } else {
      CountWithin(xs[1..], small, large);
    }
  }

  lemma TicketsOf(open: seq<Position>, i: nat, p: Position)
    ensures Tickets(open + [p]) == Tickets(open) + [p.ticket]
    ensures i < |open| ==> Tickets(Without(open, i)) == Without(Tickets(open), i)
    ensures i < |open| && p.ticket == open[i].ticket ==> Tickets(open[i := p]) == Tickets(open)
  {}

  /** What one turn of the exit loop does to the tickets: none, or one of them leaves. */
  lemma ExitTickets(cfg: Config, mk: Market, s: Sim, bar: Bar, i: nat)
    requires i < |s.open|
    ensures var next := ExitTurn(cfg, mk, s, bar, i);
            || (Tickets(next.open) == Tickets(s.open) && next.trades == s.trades && next.equity == s.equity
                && next.risk == s.risk)
            || (Tickets(next.open) == Without(Tickets(s.open), i) && |next.trades| == |s.trades| + 1
                && var t := next.trades[|s.trades|];
                   && next.trades == s.trades + [t] && t.ticket == s.open[i].ticket
                   && next.equity == s.equity + t.pnl
                   && next.risk == RiskAfter(s.risk, t.r, cfg.streak, t.ticket.baseRiskPct))
    ensures var next := ExitTurn(cfg, mk, s, bar, i); next.admitted == s.admitted && next.curve == s.curve
  {
    hide ExitPrice, RiskAfter, Tickets;
    var p := Trailed(cfg, s.open[i], bar);
    TicketsOf(s.open, i, p);
  }

  /* ---- exposure caps ---- */

  ghost predicate NonNegativeCap(cap: Option<real>) { cap.Some? ==> cap.value >= 0.0 }

  /** No percentage in the policy is negative, and there is equity to start with. */
  ghost predicate Policy(cfg: Config) {
    && cfg.baseEquity > 0.0 && cfg.basePerTradePct >= 0.0 && cfg.baseRiskPct >= 0.0
    && (forall k | k in cfg.limits :: cfg.limits[k].perTradePct >= 0.0)
    && cfg.streak.lossRiskPct >= 0.0 && cfg.streak.winCapPct >= 0.0 && cfg.streak.winStepPct >= 0.0
    && NonNegativeCap(cfg.totalSoft) && NonNegativeCap(cfg.totalHard) && NonNegativeCap(cfg.bucketCap)
  }

  /** Besides, risk is sized on the starting equity. */
  ghost predicate FixedPolicy(cfg: Config) { cfg.fixedRisk && Policy(cfg) }

  /** Open risk is above no cap by more than `slack`. */
  ghost predicate Capped(cfg: Config, tickets: seq<Ticket>, slack: real)
    requires cfg.baseEquity != 0.0
  {
    && !Exceeds(OpenPct(tickets, cfg.baseEquity, Any()) - slack, cfg.totalHard)
    && !Exceeds(OpenPct(tickets, cfg.baseEquity, Any()) - slack, cfg.totalSoft)
    && forall c :: !Exceeds(OpenPct(tickets, cfg.baseEquity, Using(c)) - slack, cfg.bucketCap)
  }

  ghost predicate SoundTickets(tickets: seq<Ticket>) {
    forall t | t in tickets :: t.riskAmount >= 0.0 && t.baseRiskPct >= 0.0
  }

  ghost predicate CapsHold(cfg: Config, s: Sim, slack: real)
    requires cfg.baseEquity != 0.0
  {
    s.risk.currentPct >= 0.0 && SoundTickets(Tickets(s.open)) && Capped(cfg, Tickets(s.open), slack)
  }

  lemma StepsScale(steps: int, pct: real)
    requires steps >= 1 && pct >= 0.0
    ensures steps as real * pct >= 0.0
  {}

  lemma RiskStaysNonNegative(cfg: Config, risk: Risk, r: real, basePct: real)
    requires Policy(cfg) && basePct >= 0.0
    ensures RiskAfter(risk, r, cfg.streak, basePct).currentPct >= 0.0
  {
    var steps := risk.wins + 1 - cfg.streak.winThreshold + 1;
    if steps >= 1 { StepsScale(steps, cfg.streak.winStepPct); }
  }

  lemma CappedWithout(cfg: Config, xs: seq<Ticket>, i: nat, slack: real)
    requires cfg.baseEquity > 0.0 && i < |xs| && SoundTickets(xs) && Capped(cfg, xs, slack)
    ensures SoundTickets(Without(xs, i)) && Capped(cfg, Without(xs, i), slack)
  {
    hide OpenPct;
    var base := cfg.baseEquity;
    assert xs[i] in xs && Pct(xs[i], base) >= 0.0;
    PctWithout(xs, i, base, Any());
    forall c ensures !Exceeds(OpenPct(Without(xs, i), base, Using(c)) - slack, cfg.bucketCap) {
      PctWithout(xs, i, base, Using(c));
    }
  }

  /** Two symbols sharing a currency overlap, so the bucket bounds each currency. */
  lemma CurrencyInBucket(symbol: string, c: string)
    requires Touches(symbol, c)
    ensures Within(Using(c), Bucket(symbol))
  {}

  lemma SizedPct(base: real, newPct: real)
    requires base != 0.0
    ensures base * (newPct / 100.0) / base * 100.0 == newPct
  {
    var x := newPct / 100.0;
    assert base * x / base == x;
  }

  lemma JudgeAdmits(cfg: Config, mk: Market, s: Sim, symbol: string, strategy: string, newPct: real)
    requires cfg.baseEquity != 0.0 && Judge(cfg, mk, s, symbol, strategy, newPct) == Admit
    ensures var xs := Tickets(s.open);
            && !Exceeds(OpenPct(xs, cfg.baseEquity, Any()) + newPct, cfg.totalHard)
            && !Exceeds(OpenPct(xs, cfg.baseEquity, Any()) + newPct, cfg.totalSoft)
            && !Exceeds(OpenPct(xs, cfg.baseEquity, Bucket(symbol)) + newPct, cfg.bucketCap)
            && !AtLimit(|s.open|, LimitsOf(cfg, strategy).maxOverall)
            && !AtLimit(OpenCount(xs, Bucket(symbol)), LimitsOf(cfg, strategy).maxBucket)
  {
    hide OpenPct, OpenCount;
  }

  lemma CappedAdmit(cfg: Config, xs: seq<Ticket>, t: Ticket, newPct: real, slack: real)
    requires cfg.baseEquity > 0.0 && slack >= 0.0 && SoundTickets(xs) && Capped(cfg, xs, slack)
    requires Pct(t, cfg.baseEquity) <= newPct + slack
    requires !Exceeds(OpenPct(xs, cfg.baseEquity, Any()) + newPct, cfg.totalHard)
    requires !Exceeds(OpenPct(xs, cfg.baseEquity, Any()) + newPct, cfg.totalSoft)
    requires !Exceeds(OpenPct(xs, cfg.baseEquity, Bucket(t.symbol)) + newPct, cfg.bucketCap)
    ensures Capped(cfg, xs + [t], slack)
  {
    hide OpenPct, Pct;
    var base := cfg.baseEquity;
    PctSnoc(xs, t, base, Any());
    forall c ensures !Exceeds(OpenPct(xs + [t], base, Using(c)) - slack, cfg.bucketCap) {
      PctSnoc(xs, t, base, Using(c));
      if Touches(t.symbol, c) {
        CurrencyInBucket(t.symbol, c);
        PctWithin(xs, base, Using(c), Bucket(t.symbol));
      }
    }
  }

  /* ---- what a position adds ---- */

  /** The percentage the caps are checked with. */
  function CheckedPct(cfg: Config, s: Sim, e: Pending): real {
    MinR(s.risk.currentPct, StrategyRiskPct(cfg, e.signal.strategy))
  }

  /** The percentage of the starting equity a position of the checked percentage really risks. */
  function AddedPct(cfg: Config, equity: real, newPct: real): real
    requires cfg.baseEquity != 0.0
  {
    (if cfg.fixedRisk then cfg.baseEquity else equity) * (newPct / 100.0) / cfg.baseEquity * 100.0
  }

  lemma TimesBoth(x: real, y: real, k: real)
    requires k > 0.0
    ensures x <= y <==> x * k <= y * k
  {
    if x <= y { assert (y - x) * k >= 0.0; } else { assert (x - y) * k > 0.0; }
  }

  lemma Scaled(base: real, equity: real, newPct: real)
    requires base > 0.0 && newPct > 0.0
    ensures equity * (newPct / 100.0) / base * 100.0 <= newPct <==> equity <= base
  {
    var x := newPct / 100.0;
    var y := equity * x / base;
    assert y * base == equity * x;
    TimesBoth(equity, base, x);
    TimesBoth(y, x, base);
  }

  /** It is within the checked one exactly when risk is fixed or equity has not grown past the start. */
  lemma MeasuredRisk(cfg: Config, equity: real, newPct: real)
    requires cfg.baseEquity > 0.0 && newPct > 0.0
    ensures AddedPct(cfg, equity, newPct) <= newPct <==> cfg.fixedRisk || equity <= cfg.baseEquity
  {
    if cfg.fixedRisk { SizedPct(cfg.baseEquity, newPct); } else { Scaled(cfg.baseEquity, equity, newPct); }
  }

  /** An admission breaks a cap, for the whole book or for any selection of symbols, exactly when the open risk
      before it and the risk it adds exceed the cap together: all of it known before the call. */
  lemma AdmissionBreaksIff(cfg: Config, mk: Market, s: Sim, e: Pending, bar: Bar, sel: string -> bool,
                           cap: Option<real>)
    requires cfg.baseEquity != 0.0 && OpenSpec(cfg, mk, s, e, bar).admitted != s.admitted
    ensures var before := OpenPct(Tickets(s.open), cfg.baseEquity, sel);
            Exceeds(OpenPct(Tickets(OpenSpec(cfg, mk, s, e, bar).open), cfg.baseEquity, sel), cap) <==>
            Exceeds(before + if sel(e.symbol) then AddedPct(cfg, s.equity, CheckedPct(cfg, s, e)) else 0.0, cap)
  {
    hide Judge, EntryPrice, StopPrice, OpenPct, Exceeds;
    var entryPrice := EntryPrice(mk, e, bar, mk.slip(s.draws));
    var stop := StopPrice(mk, e, entryPrice).value;
    var t := NewTicket(cfg, mk, s, e, bar, entryPrice, Abs(entryPrice - stop), CheckedPct(cfg, s, e));
    assert OpenSpec(cfg, mk, s, e, bar).open == s.open + [Position(t, stop)];
    TicketsOf(s.open, 0, Position(t, stop));
    PctSnoc(Tickets(s.open), t, cfg.baseEquity, sel);
    assert t.symbol == e.symbol && Pct(t, cfg.baseEquity) == AddedPct(cfg, s.equity, CheckedPct(cfg, s, e));
  }

  /** So an admitted position breaks the total cap exactly when that cap stands between the checked and the
      added percentage, and then equity has grown. */
  lemma AdmittedOverCapIff(cfg: Config, mk: Market, s: Sim, e: Pending, bar: Bar)
    requires cfg.baseEquity > 0.0 && OpenSpec(cfg, mk, s, e, bar).admitted != s.admitted && CheckedPct(cfg, s, e) > 0.0
    ensures var before := OpenPct(Tickets(s.open), cfg.baseEquity, Any());
            var checked := CheckedPct(cfg, s, e);
            var over := Exceeds(OpenPct(Tickets(OpenSpec(cfg, mk, s, e, bar).open), cfg.baseEquity, Any()),
                                cfg.totalHard);
            && (over <==> !Exceeds(before + checked, cfg.totalHard)
                          && Exceeds(before + AddedPct(cfg, s.equity, checked), cfg.totalHard))
            && (over ==> !cfg.fixedRisk && s.equity > cfg.baseEquity)
  {
    hide OpenSpec, OpenPct, AddedPct;
    AdmissionBreaksIff(cfg, mk, s, e, bar, Any(), cfg.totalHard);
    MeasuredRisk(cfg, s.equity, CheckedPct(cfg, s, e));
    AdmittedIsJudged(cfg, mk, s, e, bar);
  }

  lemma AdmittedIsJudged(cfg: Config, mk: Market, s: Sim, e: Pending, bar: Bar)
    requires cfg.baseEquity != 0.0 && OpenSpec(cfg, mk, s, e, bar).admitted != s.admitted
    ensures !Exceeds(OpenPct(Tickets(s.open), cfg.baseEquity, Any()) + CheckedPct(cfg, s, e), cfg.totalHard)
  {
    hide OpenPct, OpenCount, EntryPrice, StopPrice, NewTicket, Exceeds;
  }

  /* ---- every run ---- */

  /** No strategy risks more than `most` percent a trade, and equity stays between zero and `top`. */
  ghost predicate Grown(cfg: Config, mk: Market, bars: seq<Bar>, top: real, most: real) {
    && top >= cfg.baseEquity && most >= 0.0 && (forall strategy :: StrategyRiskPct(cfg, strategy) <= most)
    && forall k | 0 <= k <= |bars| :: 0.0 <= After(cfg, mk, bars[..k]).equity <= top
  }

  /** How far above a cap the open risk can get: by the growth of equity, on the largest trade. */
  function Slack(cfg: Config, top: real, most: real): real
    requires cfg.baseEquity != 0.0
  {
    if cfg.fixedRisk then 0.0 else most * (top / cfg.baseEquity - 1.0)
  }

  ghost predicate Sized(cfg: Config, equity: real, newPct: real, top: real, most: real) {
    cfg.fixedRisk || (0.0 <= equity <= top && top >= cfg.baseEquity && newPct <= most)
  }

  /** Sizing on equity scales the checked percentage by its growth. */
  lemma ShareOfBase(base: real, equity: real, newPct: real)
    requires base > 0.0
    ensures equity * (newPct / 100.0) / base * 100.0 == equity / base * newPct
  {
    var x, g := newPct / 100.0, equity / base;
    assert g * base == equity;
    var y := equity * x / base;
    assert y * base == equity * x;
    assert (g * x) * base == equity * x;
    TimesBoth(y, g * x, base);
    TimesBoth(g * x, y, base);
    assert g * x * 100.0 == g * newPct;
  }

  lemma GrowthOnMost(g: real, h: real, newPct: real, most: real)
    requires g <= h && 1.0 <= h && 0.0 <= newPct <= most
    ensures g * newPct <= newPct + most * (h - 1.0) && most * (h - 1.0) >= 0.0
  {
    assert (h - g) * newPct >= 0.0;
    assert (h - 1.0) * (most - newPct) >= 0.0;
    assert (h - 1.0) * most >= 0.0;
  }

  lemma GrowthShare(base: real, equity: real, top: real, newPct: real, most: real)
    requires base > 0.0 && 0.0 <= equity <= top && top >= base && 0.0 <= newPct <= most
    ensures equity * (newPct / 100.0) / base * 100.0 <= newPct + most * (top / base - 1.0)
    ensures equity * (newPct / 100.0) >= 0.0 && most * (top / base - 1.0) >= 0.0
  {
    var g, h := equity / base, top / base;
    assert g * base == equity && h * base == top;
    TimesBoth(g, h, base);
    TimesBoth(1.0, h, base);
    ShareOfBase(base, equity, newPct);
    GrowthOnMost(g, h, newPct, most);
  }

  lemma StrategyIsSound(cfg: Config, strategy: string)
    requires Policy(cfg)
    ensures StrategyRiskPct(cfg, strategy) >= 0.0
  {}

  lemma AddedWithin(cfg: Config, equity: real, newPct: real, top: real, most: real)
    requires cfg.baseEquity > 0.0 && newPct >= 0.0 && Sized(cfg, equity, newPct, top, most)
    ensures Slack(cfg, top, most) >= 0.0 && AddedPct(cfg, equity, newPct) <= newPct + Slack(cfg, top, most)
    ensures (if cfg.fixedRisk then cfg.baseEquity else equity) * (newPct / 100.0) >= 0.0
  {
    if cfg.fixedRisk {
      SizedPct(cfg.baseEquity, newPct);
      assert newPct / 100.0 >= 0.0;
    } else {
      GrowthShare(cfg.baseEquity, equity, top, newPct, most);
    }
  }

  lemma NewTicketSized(cfg: Config, mk: Market, s: Sim, e: Pending, bar: Bar, entryPrice: real, distance: Distance,
      newPct: real, top: real, most: real)
    requires Policy(cfg) && newPct >= 0.0 && Sized(cfg, s.equity, newPct, top, most)
    ensures var t := NewTicket(cfg, mk, s, e, bar, entryPrice, distance, newPct);
            && t.riskAmount >= 0.0 && t.baseRiskPct >= 0.0 && t.symbol == e.symbol
            && Slack(cfg, top, most) >= 0.0 && Pct(t, cfg.baseEquity) <= newPct + Slack(cfg, top, most)
  {
    hide StrategyRiskPct, Slack;
    StrategyIsSound(cfg, e.signal.strategy);
    AddedWithin(cfg, s.equity, newPct, top, most);
    var t := NewTicket(cfg, mk, s, e, bar, entryPrice, distance, newPct);
    assert Pct(t, cfg.baseEquity) == AddedPct(cfg, s.equity, newPct);
  }

  lemma OpenKeepsCaps(cfg: Config, mk: Market, s: Sim, e: Pending, bar: Bar, top: real, most: real)
    requires Policy(cfg) && CapsHold(cfg, s, Slack(cfg, top, most))
             && Sized(cfg, s.equity, CheckedPct(cfg, s, e), top, most)
    ensures CapsHold(cfg, OpenSpec(cfg, mk, s, e, bar), Slack(cfg, top, most))
  {
    hide Capped, Judge, EntryPrice, StopPrice, NewTicket, Pct, OpenPct, Exceeds, Slack, Sized;
    var newPct := CheckedPct(cfg, s, e);
    var entryPrice := EntryPrice(mk, e, bar, mk.slip(s.draws));
    var stop := StopPrice(mk, e, entryPrice);
    if stop.Some? && entryPrice != stop.value && Judge(cfg, mk, s, e.symbol, e.signal.strategy, newPct) == Admit {
      var t := NewTicket(cfg, mk, s, e, bar, entryPrice, Abs(entryPrice - stop.value), newPct);
      NewTicketSized(cfg, mk, s, e, bar, entryPrice, Abs(entryPrice - stop.value), newPct, top, most);
      JudgeAdmits(cfg, mk, s, e.symbol, e.signal.strategy, newPct);
      CappedAdmit(cfg, Tickets(s.open), t, newPct, Slack(cfg, top, most));
      TicketsOf(s.open, 0, Position(t, stop.value));
    }
  }

  lemma ExitKeepsCaps(cfg: Config, mk: Market, s: Sim, bar: Bar, i: nat, slack: real)
    requires Policy(cfg) && CapsHold(cfg, s, slack) && i < |s.open|
    ensures CapsHold(cfg, ExitTurn(cfg, mk, s, bar, i), slack)
  {
    hide ExitTurn, Capped, RiskAfter;
    ExitTickets(cfg, mk, s, bar, i);
    CappedWithout(cfg, Tickets(s.open), i, slack);
    var next := ExitTurn(cfg, mk, s, bar, i);
    assert Tickets(s.open)[i] in Tickets(s.open);
    if |next.trades| > |s.trades| {
      RiskStaysNonNegative(cfg, s.risk, next.trades[|s.trades|].r, s.open[i].ticket.baseRiskPct);
    }
  }

  lemma CapsIgnore(cfg: Config, slack: real)
    requires Policy(cfg) && slack >= 0.0
    ensures forall s | CapsHold(cfg, s, slack) :: CapsHold(cfg, Marked(s), slack)
    ensures forall s: Sim, pending: seq<Pending> | CapsHold(cfg, s, slack) ::
            CapsHold(cfg, s.(pending := pending), slack)
    ensures CapsHold(cfg, Start(cfg), slack)
  {
    hide Capped;
    assert Capped(cfg, [], slack) by { NoneCapped(cfg, slack); }
    assert Tickets([]) == [];
  }

  lemma NoneCapped(cfg: Config, slack: real)
    requires Policy(cfg) && slack >= 0.0
    ensures Capped(cfg, [], slack)
  {}

  lemma OpenKeepsEquity(cfg: Config, mk: Market, s: Sim, e: Pending, bar: Bar)
    ensures OpenSpec(cfg, mk, s, e, bar).equity == s.equity
  {
    hide Judge, EntryPrice, StopPrice, NewTicket;
  }

  /** Entries do not change equity. */
  lemma EntryEquity(cfg: Config, mk: Market, s: Sim, bar: Bar)
    ensures EntrySpec(cfg, mk, s, bar).equity == s.equity
  {
    hide OpenSpec, EntrySpec;
    var inv := (x: Sim) => x.equity == s.equity;
    forall x, e | inv(x) ensures inv(OpenSpec(cfg, mk, x, e, bar)) { OpenKeepsEquity(cfg, mk, x, e, bar); }
    EntryKeeps(cfg, mk, inv, s, bar);
  }

  lemma BarKeepsCaps(cfg: Config, mk: Market, s: Sim, bar: Bar, top: real, most: real)
    requires cfg.baseEquity > 0.0 && Policy(cfg) && Slack(cfg, top, most) >= 0.0
             && CapsHold(cfg, s, Slack(cfg, top, most))
    requires forall e :: Sized(cfg, BarSpec(cfg, mk, s, bar).equity, StrategyRiskPct(cfg, e), top, most)
    ensures CapsHold(cfg, BarSpec(cfg, mk, s, bar), Slack(cfg, top, most))
  {
    hide CapsHold, OpenSpec, ExitTurn, EntrySpec, ExitSpec, Policy, Slack, StrategyRiskPct;
    var slack := Slack(cfg, top, most);
    CapsIgnore(cfg, slack);
    if !s.raised {
      var after := (x: Sim) => CapsHold(cfg, x, slack);
      forall x: Sim, i: nat | after(x) && i < |x.open| ensures after(ExitTurn(cfg, mk, x, bar, i)) {
        ExitKeepsCaps(cfg, mk, x, bar, i, slack);
      }
      ExitKeeps(cfg, mk, after, s, bar, 0);
      var s1 := ExitSpec(cfg, mk, s, bar, 0);
      EntryEquity(cfg, mk, s1, bar);
      var inv := (x: Sim) => CapsHold(cfg, x, slack) && x.equity == s1.equity;
      forall x, e | inv(x) ensures inv(OpenSpec(cfg, mk, x, e, bar)) {
        OpenKeepsEquity(cfg, mk, x, e, bar);
        assert Sized(cfg, s1.equity, StrategyRiskPct(cfg, e.signal.strategy), top, most);
        OpenKeepsCaps(cfg, mk, x, e, bar, top, most);
      }
      EntryKeeps(cfg, mk, inv, s1, bar);
    }
  }

  lemma {:induction false} AfterKeepsCaps(cfg: Config, mk: Market, bars: seq<Bar>, top: real, most: real)
    requires Policy(cfg) && (cfg.fixedRisk || Grown(cfg, mk, bars, top, most))
    ensures Slack(cfg, top, most) >= 0.0 && CapsHold(cfg, After(cfg, mk, bars), Slack(cfg, top, most))
    decreases |bars|
  {
    hide CapsHold, BarSpec, StrategyRiskPct, Slack;
    SlackIsNotNegative(cfg, top, most);
    CapsIgnore(cfg, Slack(cfg, top, most));
    if bars == [] {
    } else {
      var prev := bars[..|bars| - 1];
      assert bars[..|bars|] == bars;
      assert forall k | 0 <= k <= |prev| :: prev[..k] == bars[..k];
      AfterKeepsCaps(cfg, mk, prev, top, most);
      BarKeepsCaps(cfg, mk, After(cfg, mk, prev), bars[|bars| - 1], top, most);
    }
  }

  lemma SlackIsNotNegative(cfg: Config, top: real, most: real)
    requires Policy(cfg) && (cfg.fixedRisk || (top >= cfg.baseEquity && most >= 0.0))
    ensures Slack(cfg, top, most) >= 0.0
  {
    if !cfg.fixedRisk { GrowthShare(cfg.baseEquity, cfg.baseEquity, top, 0.0, most); }
  }

  /** With fixed-risk sizing, in every reachable state total open risk is within both total caps, and
      for every currency the positions touching it stay within the bucket cap together. */
  lemma ExposureCaps(cfg: Config, mk: Market, bars: seq<Bar>)
    requires FixedPolicy(cfg)
    ensures Capped(cfg, Tickets(After(cfg, mk, bars).open), 0.0)
  {
    AfterKeepsCaps(cfg, mk, bars, cfg.baseEquity, 0.0);
  }

  /** Without it, as long as equity has stayed between zero and `top`, no cap is exceeded by more than the growth
      of equity on the largest trade; and not at all while equity has not been above the start. */
  lemma GrownCaps(cfg: Config, mk: Market, bars: seq<Bar>, top: real, most: real)
    requires Policy(cfg) && Grown(cfg, mk, bars, top, most)
    ensures Capped(cfg, Tickets(After(cfg, mk, bars).open), most * (top / cfg.baseEquity - 1.0))
    ensures top == cfg.baseEquity ==> Capped(cfg, Tickets(After(cfg, mk, bars).open), 0.0)
  {
    hide After, Grown;
    AfterKeepsCaps(cfg, mk, bars, top, most);
    GrownBounds(cfg, mk, bars, top, most);
    GrowthShare(cfg.baseEquity, cfg.baseEquity, top, 0.0, most);
    CappedMore(cfg, Tickets(After(cfg, mk, bars).open), Slack(cfg, top, most), most * (top / cfg.baseEquity - 1.0));
    assert top == cfg.baseEquity ==> top / cfg.baseEquity == 1.0;
  }

  lemma GrownBounds(cfg: Config, mk: Market, bars: seq<Bar>, top: real, most: real)
    requires Grown(cfg, mk, bars, top, most)
    ensures top >= cfg.baseEquity && most >= 0.0
  {}

  lemma CappedMore(cfg: Config, xs: seq<Ticket>, slack: real, more: real)
    requires cfg.baseEquity != 0.0 && Capped(cfg, xs, slack) && slack <= more
    ensures Capped(cfg, xs, more)
  {
    hide OpenPct;
    forall c ensures !Exceeds(OpenPct(xs, cfg.baseEquity, Using(c)) - more, cfg.bucketCap) {
      assert !Exceeds(OpenPct(xs, cfg.baseEquity, Using(c)) - slack, cfg.bucketCap);
    }
  }

  /* ---- a run over its cap ---- */

  const LIMITS_OF_ONE := Config(
    100.0, 1.0, 1.0, StreakRules(100, 1.0, 100, 0.0, 1.0, false), map[],
    None, Some(1.0), None, None, None, None, 0.0, false, false, None, None, 2.0)

  const FLAT_MARKET := Market((_, _) => 0.0, _ => 0.0, _ => 0, (_, _, _) => true, _ => 1000, _ => 1.0, false,
                              (_, _) => 0.0)

  const BUY := Signal("s", true, None, None)

  // The first bar opens a position at 100; the second reaches its target and opens another one.
  const TARGET_REACHED := [
    Bar(0, "EURUSD", None, 100.0, 100.0, 100.0, 10.0, true, [BUY]),
    Bar(1, "EURUSD", None, 120.0, 120.0, 120.0, 10.0, true, [BUY])]

  /** With nothing pending and no session filter, one signal is one attempt at the close. */
  lemma EntryIsOneOpen(cfg: Config, mk: Market, s: Sim, bar: Bar)
    requires s.pending == [] && !s.raised && bar.featuresReady && bar.signals == [BUY] && cfg.session.None?
             && !cfg.nextBarEntry
    ensures EntrySpec(cfg, mk, s, bar) == OpenSpec(cfg, mk, s, EntryOf(cfg, BUY, bar), bar)
  {
    hide OpenSpec;
    assert [BUY][1..] == [];
    assert s.(pending := []) == s && EntriesFor([], bar.symbol, false) == EntriesFor([], bar.symbol, true) == [];
    assert SignalsSpec(cfg, mk, s, [BUY], bar) == SignalsSpec(cfg, mk, SignalSpec(cfg, mk, s, BUY, bar), [], bar);
  }

  /** A bar of the run, with nothing open: its signal opens one position of 1%, 10 above its stop. */
  lemma BuyOpens(s: Sim, bar: Bar)
    requires s.open == [] && s.pending == [] && !s.raised && s.risk.currentPct == 1.0
    requires bar.featuresReady && bar.signals == [BUY] && bar.atr == 10.0
    ensures var next := EntrySpec(LIMITS_OF_ONE, FLAT_MARKET, s, bar);
            && !next.raised && next.equity == s.equity && next.risk == s.risk && next.pending == [] && |next.open| == 1
            && var p := next.open[0];
               && p.ticket.symbol == bar.symbol && p.ticket.isLong && p.ticket.entry == bar.close
               && p.stop == bar.close - 10.0
               && p.ticket.riskDistance == 10.0 && p.ticket.target == bar.close + 20.0
               && p.ticket.riskAmount == s.equity * 0.01 && p.ticket.baseRiskPct == 1.0
  {
    var cfg, mk := LIMITS_OF_ONE, FLAT_MARKET;
    var e := EntryOf(cfg, BUY, bar);
    EntryIsOneOpen(cfg, mk, s, bar);
    assert Tickets([]) == [];
    assert EntryPrice(mk, e, bar, mk.slip(s.draws)) == bar.close;
    assert StopPrice(mk, e, bar.close) == Some(bar.close - 10.0);
    assert Judge(cfg, mk, s, e.symbol, "s", 1.0) == Admit;
  }

  lemma TargetBooks(s: Sim, bar: Bar)
    requires |s.open| == 1 && !s.raised && s.risk == Risk(1.0, 0, 0) && s.equity == 100.0
             && bar.symbol == s.open[0].ticket.symbol
    requires var p := s.open[0];
             && p.ticket.isLong && p.ticket.entry == 100.0 && p.stop == 90.0 && p.ticket.riskDistance == 10.0
             && p.ticket.target == 120.0 && p.ticket.riskAmount == 1.0 && p.ticket.baseRiskPct == 1.0
    requires bar.low == bar.high == 120.0
    ensures var next := ExitSpec(LIMITS_OF_ONE, FLAT_MARKET, s, bar, 0);
            next.open == [] && !next.raised && next.equity == 102.0 && next.risk.currentPct == 1.0
            && next.pending == s.pending
  {
    var next := ExitTurn(LIMITS_OF_ONE, FLAT_MARKET, s, bar, 0);
    assert ExitPrice(s.open[0], bar) == Some(120.0);
    assert next.open == [] && next.equity == 102.0;
  }

  /** One winning trade is enough: equity is 102, and the next position risks 1.02% under a cap of 1%. */
  lemma GrownRunBreaksCap()
    ensures var end := After(LIMITS_OF_ONE, FLAT_MARKET, TARGET_REACHED);
            && end.equity == 102.0
            && OpenPct(Tickets(end.open), LIMITS_OF_ONE.baseEquity, Any()) == 1.02
            && Exceeds(OpenPct(Tickets(end.open), LIMITS_OF_ONE.baseEquity, Any()), LIMITS_OF_ONE.totalHard)
  {
    hide EntrySpec, ExitSpec;
    var cfg, mk, bars := LIMITS_OF_ONE, FLAT_MARKET, TARGET_REACHED;
    assert bars[..1] == [bars[0]] && bars[..1][..0] == [] && bars[..2] == bars;
    var start := Start(cfg);
    assert ExitSpec(cfg, mk, start, bars[0], 0) == start by { NothingToExit(start, bars[0]); }
    BuyOpens(start, bars[0]);
    var first := After(cfg, mk, bars[..1]);
    assert After(cfg, mk, []) == start;
    assert first == BarSpec(cfg, mk, start, bars[0]);
    TargetBooks(first, bars[1]);
    BuyOpens(ExitSpec(cfg, mk, first, bars[1], 0), bars[1]);
    var end := After(cfg, mk, bars);
    assert end == BarSpec(cfg, mk, first, bars[1]);
    assert Tickets(end.open) == [end.open[0].ticket];
    assert Tickets(end.open)[1..] == [];
  }

  lemma NothingToExit(s: Sim, bar: Bar)
    requires s.open == []
    ensures ExitSpec(LIMITS_OF_ONE, FLAT_MARKET, s, bar, 0) == s
  {}

  /* ---- position limits ---- */

  /** Every strategy that may ever enter has a bucket limit of at most `limit`. */
  ghost predicate UniformBucketLimit(cfg: Config, mk: Market, limit: nat) {
    forall strategy, isLong, ts | mk.entryAllowed(strategy, isLong, ts) ::
      var n := LimitsOf(cfg, strategy).maxBucket; n.Some? && n.value <= limit
  }

  ghost predicate CountsHold(limit: nat, s: Sim) {
    forall c :: OpenCount(Tickets(s.open), Using(c)) <= limit
  }

  lemma OpenKeepsCounts(cfg: Config, mk: Market, limit: nat, s: Sim, e: Pending, bar: Bar)
    requires UniformBucketLimit(cfg, mk, limit) && CountsHold(limit, s)
    ensures CountsHold(limit, OpenSpec(cfg, mk, s, e, bar))
  {
    hide EntryPrice, StopPrice, NewTicket, OpenCount, OpenPct, Exceeds, Tickets;
    var next := OpenSpec(cfg, mk, s, e, bar);
    if next.admitted != s.admitted {
      var xs := Tickets(s.open);
      var p := next.open[|s.open|];
      TicketsOf(s.open, 0, p);
      forall c ensures OpenCount(Tickets(next.open), Using(c)) <= limit {
        CountSnoc(xs, p.ticket, Using(c));
        assert OpenCount(xs, Using(c)) <= limit;
        NewTicketFacts(cfg, mk, s, e, bar);
        if Touches(e.symbol, c) {
          CurrencyInBucket(e.symbol, c);
          CountWithin(xs, Using(c), Bucket(e.symbol));
        }
      }
    }
  }

  lemma NewTicketFacts(cfg: Config, mk: Market, s: Sim, e: Pending, bar: Bar)
    requires OpenSpec(cfg, mk, s, e, bar).admitted != s.admitted
    ensures var next := OpenSpec(cfg, mk, s, e, bar);
            && |next.open| == |s.open| + 1 && next.open[|s.open|].ticket.symbol == e.symbol
            && mk.entryAllowed(e.signal.strategy, e.signal.isLong, bar.ts)
            && !AtLimit(OpenCount(Tickets(s.open), Bucket(e.symbol)), LimitsOf(cfg, e.signal.strategy).maxBucket)
  {
    hide OpenCount, OpenPct, Exceeds;
  }

  lemma ExitKeepsCounts(cfg: Config, mk: Market, limit: nat, s: Sim, bar: Bar, i: nat)
    requires CountsHold(limit, s) && i < |s.open|
    ensures CountsHold(limit, ExitTurn(cfg, mk, s, bar, i))
  {
    hide ExitTurn, OpenCount;
    ExitTickets(cfg, mk, s, bar, i);
    forall c ensures OpenCount(Tickets(ExitTurn(cfg, mk, s, bar, i).open), Using(c)) <= limit {
      CountWithout(Tickets(s.open), i, Using(c));
      assert OpenCount(Tickets(s.open), Using(c)) <= limit;
    }
  }

  /** The bucket check is per pair of symbols; what it guarantees over a run is per currency. */
  lemma CurrencyPositionLimit(cfg: Config, mk: Market, limit: nat, bars: seq<Bar>)
    requires UniformBucketLimit(cfg, mk, limit)
    ensures forall c :: OpenCount(Tickets(After(cfg, mk, bars).open), Using(c)) <= limit
  {
    hide OpenSpec, ExitTurn, After, UniformBucketLimit, OpenCount;
    var inv := (s: Sim) => CountsHold(limit, s);
    forall s, e, bar | inv(s) ensures inv(OpenSpec(cfg, mk, s, e, bar)) { OpenKeepsCounts(cfg, mk, limit, s, e, bar); }
    forall s: Sim, bar, i: nat | inv(s) && i < |s.open| ensures inv(ExitTurn(cfg, mk, s, bar, i)) {
      ExitKeepsCounts(cfg, mk, limit, s, bar, i);
    }
    forall c ensures OpenCount([], Using(c)) == 0 { NoneCounted(Using(c)); }
    assert Tickets([]) == [];
    RunKeeps(cfg, mk, inv, bars);
    assert CountsHold(limit, After(cfg, mk, bars));
  }

  lemma NoneCounted(sel: string -> bool)
    ensures OpenCount([], sel) == 0
  {}

  /* ---- conservation ---- */

  function SumPnl(trades: seq<Trade>): real {
    if trades == [] then 0.0 else SumPnl(trades[..|trades| - 1]) + trades[|trades| - 1].pnl
  }

  function Traded(trades: seq<Trade>): seq<Ticket> {
    seq(|trades|, i requires 0 <= i < |trades| => trades[i].ticket)
  }

  /** Equity is the start plus the P&L of the closed trades, and every ticket ever admitted is either
      open or closed, once. */
  ghost predicate Conserved(cfg: Config, s: Sim) {
    && s.equity == cfg.baseEquity + SumPnl(s.trades)
    && multiset(s.admitted) == multiset(Tickets(s.open)) + multiset(Traded(s.trades))
  }

  lemma WithoutMultiset(xs: seq<Ticket>, i: nat)
    requires i < |xs|
    ensures multiset(xs) == multiset(Without(xs, i)) + multiset{xs[i]}
  {
    assert xs == xs[..i] + [xs[i]] + xs[i + 1..];
  }

  lemma TradedSnoc(trades: seq<Trade>, t: Trade)
    ensures Traded(trades + [t]) == Traded(trades) + [t.ticket] && SumPnl(trades + [t]) == SumPnl(trades) + t.pnl
  {
    assert (trades + [t])[..|trades|] == trades;
  }

  lemma BookingConserves(cfg: Config, s: Sim, next: Sim, i: nat, t: Trade)
    requires Conserved(cfg, s) && i < |s.open| && t.ticket == s.open[i].ticket
    requires Tickets(next.open) == Without(Tickets(s.open), i) && next.trades == s.trades + [t]
    requires next.equity == s.equity + t.pnl && next.admitted == s.admitted
    ensures Conserved(cfg, next)
  {
    hide Traded, SumPnl, Without;
    TradedSnoc(s.trades, t);
    WithoutMultiset(Tickets(s.open), i);
    assert Tickets(s.open)[i] == t.ticket;
  }

  lemma ExitConserves(cfg: Config, mk: Market, s: Sim, bar: Bar, i: nat)
    requires Conserved(cfg, s) && i < |s.open|
    ensures Conserved(cfg, ExitTurn(cfg, mk, s, bar, i))
  {
    hide ExitTurn, Conserved, Tickets, Without;
    ExitTickets(cfg, mk, s, bar, i);
    var next := ExitTurn(cfg, mk, s, bar, i);
    if |next.trades| > |s.trades| {
      BookingConserves(cfg, s, next, i, next.trades[|s.trades|]);
    } else {
      SameConserved(cfg, s, next);
    }
  }

  lemma SameConserved(cfg: Config, s: Sim, next: Sim)
    requires Conserved(cfg, s) && Tickets(next.open) == Tickets(s.open)
    requires next.trades == s.trades && next.equity == s.equity && next.admitted == s.admitted
    ensures Conserved(cfg, next)
  {}

  /** An attempt to open either changes none of this, or adds one position and its ticket. */
  lemma OpenShape(cfg: Config, mk: Market, s: Sim, e: Pending, bar: Bar)
    ensures var next := OpenSpec(cfg, mk, s, e, bar);
            && next.trades == s.trades && next.equity == s.equity
            && if next.admitted == s.admitted then next.open == s.open
               else |next.open| == |s.open| + 1 && next.open == s.open + [next.open[|s.open|]]
                    && next.admitted == s.admitted + [next.open[|s.open|].ticket]
  {
    hide Judge, EntryPrice, StopPrice, NewTicket, StrategyRiskPct;
  }

  lemma OpenConserves(cfg: Config, mk: Market, s: Sim, e: Pending, bar: Bar)
    requires Conserved(cfg, s)
    ensures Conserved(cfg, OpenSpec(cfg, mk, s, e, bar))
  {
    hide OpenSpec, Tickets, Traded, SumPnl;
    var next := OpenSpec(cfg, mk, s, e, bar);
    OpenShape(cfg, mk, s, e, bar);
    if next.admitted != s.admitted { TicketsOf(s.open, 0, next.open[|s.open|]); }
  }

  lemma AfterConserves(cfg: Config, mk: Market, bars: seq<Bar>)
    ensures Conserved(cfg, After(cfg, mk, bars))
  {
    hide OpenSpec, ExitTurn, After;
    var inv := (s: Sim) => Conserved(cfg, s);
    forall s, e, bar | inv(s) ensures inv(OpenSpec(cfg, mk, s, e, bar)) { OpenConserves(cfg, mk, s, e, bar); }
    forall s: Sim, bar, i: nat | inv(s) && i < |s.open|
      ensures inv(ExitTurn(cfg, mk, s, bar, i)) { ExitConserves(cfg, mk, s, bar, i); }
    assert Tickets([]) == [] && Traded([]) == [];
    RunKeeps(cfg, mk, inv, bars);
  }

  lemma {:induction false} CloseAllConserves(cfg: Config, mk: Market, s: Sim, bars: seq<Bar>, ts: int)
    requires Conserved(cfg, s)
    ensures Conserved(cfg, CloseAll(cfg, mk, s, bars, ts))
    ensures CloseAll(cfg, mk, s, bars, ts).raised || CloseAll(cfg, mk, s, bars, ts).open == []
    ensures CloseAll(cfg, mk, s, bars, ts).curve == s.curve
    decreases |s.open|
  {
    hide Conserved, RiskAfter, LastClose;
    if s.open != [] && LastClose(bars, s.open[0].ticket.symbol).Some? {
      var p := s.open[0];
      var trade := TradeOf(cfg, p, LastClose(bars, p.ticket.symbol).value,
                           mk.spread(p.ticket.symbol, ts) + mk.slip(s.draws), ts);
      var next := Booked(cfg, s.(open := s.open[1..]), trade);
      TicketsOf(s.open, 0, p);
      assert s.open[1..] == Without(s.open, 0);
      BookingConserves(cfg, s, next, 0, trade);
      CloseAllConserves(cfg, mk, next, bars, ts);
    } else {
      SameConserved(cfg, s, CloseAll(cfg, mk, s, bars, ts));
    }
  }

  /** At the end nothing is open, every admitted position has exactly one trade record, and equity is
      the starting equity plus the P&L of the trades. */
  lemma RunConserves(cfg: Config, mk: Market, bars: seq<Bar>)
    ensures var end := RunSpec(cfg, mk, bars);
            && end.equity == cfg.baseEquity + SumPnl(end.trades)
            && (!end.raised ==> end.open == [] && multiset(end.admitted) == multiset(Traded(end.trades)))
  {
    hide After, CloseAll;
    AfterConserves(cfg, mk, bars);
    var s := After(cfg, mk, bars);
    if bars == [] { assert s == Start(cfg) by { AfterNone(cfg, mk); } }
    if bars != [] { CloseAllConserves(cfg, mk, s, bars, bars[|bars| - 1].ts); }
    assert Tickets([]) == [];
  }

  lemma AfterNone(cfg: Config, mk: Market)
    ensures After(cfg, mk, []) == Start(cfg)
  {}

  /* ---- the equity curve ---- */

  /** One point at the start, one per bar, and one more when positions are closed at the end. */
  lemma {:induction false} CurveLength(cfg: Config, mk: Market, bars: seq<Bar>)
    requires !RunSpec(cfg, mk, bars).raised
    ensures !After(cfg, mk, bars).raised && |After(cfg, mk, bars).curve| == 1 + |bars|
    ensures |RunSpec(cfg, mk, bars).curve| ==
            1 + |bars| + if bars != [] && After(cfg, mk, bars).open != [] then 1 else 0
  {
    var s := After(cfg, mk, bars);
    AfterPoints(cfg, mk, bars);
    AfterConserves(cfg, mk, bars);
    if bars == [] {
    } else {
      CloseAllConserves(cfg, mk, s, bars, bars[|bars| - 1].ts);
    }
  }

  lemma {:induction false} AfterPoints(cfg: Config, mk: Market, bars: seq<Bar>)
    requires !After(cfg, mk, bars).raised
    ensures |After(cfg, mk, bars).curve| == 1 + |bars|
    decreases |bars|
  {
    if bars == [] {
    } else {
      hide EntrySpec, ExitSpec;
      var s := After(cfg, mk, bars[..|bars| - 1]);
      AfterPoints(cfg, mk, bars[..|bars| - 1]);
      BarPoints(cfg, mk, s, bars[|bars| - 1]);
    }
  }

  lemma BarPoints(cfg: Config, mk: Market, s: Sim, bar: Bar)
    ensures EntrySpec(cfg, mk, ExitSpec(cfg, mk, s, bar, 0), bar).curve == s.curve
  {
    hide OpenAll, SignalsSpec;
    ExitCurve(cfg, mk, s, bar, 0);
    var s1 := ExitSpec(cfg, mk, s, bar, 0);
    var s2 := s1.(pending := EntriesFor(s1.pending, bar.symbol, false));
    OpenAllCurve(cfg, mk, s2, EntriesFor(s1.pending, bar.symbol, true), bar);
    SignalsCurve(cfg, mk, OpenAll(cfg, mk, s2, EntriesFor(s1.pending, bar.symbol, true), bar), bar.signals, bar);
  }

  lemma {:induction false} ExitCurve(cfg: Config, mk: Market, s: Sim, bar: Bar, i: nat)
    requires i <= |s.open|
    ensures ExitSpec(cfg, mk, s, bar, i).curve == s.curve
    decreases |s.open| - i
  {
    hide ExitTurn;
    if i < |s.open| {
      if s.open[i].ticket.symbol != bar.symbol {
        ExitCurve(cfg, mk, s, bar, i + 1);
      } else {
        var next := ExitTurn(cfg, mk, s, bar, i);
        ExitTurnSize(cfg, mk, s, bar, i);
        ExitTickets(cfg, mk, s, bar, i);
        ExitCurve(cfg, mk, next, bar, if |next.open| < |s.open| then i else i + 1);
      }
    }
  }

  lemma {:induction false} OpenAllCurve(cfg: Config, mk: Market, s: Sim, entries: seq<Pending>, bar: Bar)
    ensures OpenAll(cfg, mk, s, entries, bar).curve == s.curve
    decreases |entries|
  {
    if entries == [] {
    } else {
      OpenAllCurve(cfg, mk, OpenSpec(cfg, mk, s, entries[0], bar), entries[1..], bar);
    }
  }

  lemma {:induction false} SignalsCurve(cfg: Config, mk: Market, s: Sim, signals: seq<Signal>, bar: Bar)
    ensures SignalsSpec(cfg, mk, s, signals, bar).curve == s.curve
    decreases |signals|
  {
    if signals == [] {
    } else {
      SignalsCurve(cfg, mk, SignalSpec(cfg, mk, s, signals[0], bar), signals[1..], bar);
    }
  }

  /* ---- rounding ---- */

  /** Round to the nearest multiple of 0.01, halves to even. */
  function Round2(x: real): real {
    var n := (x * 100.0).Floor;
    var f := x * 100.0 - n as real;
    (if f < 0.5 || (f == 0.5 && n % 2 == 0) then n else n + 1) as real / 100.0
  }

  lemma Round2Error(x: real)
    ensures -0.005 <= Round2(x) - x <= 0.005
  {
    var n := (x * 100.0).Floor;
    assert n as real <= x * 100.0 < n as real + 1.0;
  }

  function SumRounded(trades: seq<Trade>): real {
    if trades == [] then 0.0 else SumRounded(trades[..|trades| - 1]) + Round2(trades[|trades| - 1].pnl)
  }

  lemma {:induction false} RoundedSum(trades: seq<Trade>)
    ensures Abs(SumRounded(trades) - SumPnl(trades)) <= 0.005 * |trades| as real
  {
    hide Round2;
    if trades == [] {
    } else {
      RoundedSum(trades[..|trades| - 1]);
      Round2Error(trades[|trades| - 1].pnl);
    }
  }

  /** The reported figures agree up to half a cent per rounding. */
  lemma RoundedReport(cfg: Config, mk: Market, bars: seq<Bar>)
    ensures var end := RunSpec(cfg, mk, bars);
            Abs(Round2(end.equity) - cfg.baseEquity - SumRounded(end.trades)) <= 0.005 * (|end.trades| + 1) as real
  {
    hide Round2, RunSpec, SumPnl, SumRounded;
    var end := RunSpec(cfg, mk, bars);
    RunConserves(cfg, mk, bars);
    RoundedSum(end.trades);
    Round2Error(end.equity);
  }

  /* ---- streaks ---- */

  /** The risk state after trades with the given results, all on the same base percentage. */
  function AfterTrades(risk: Risk, rs: seq<real>, streak: StreakRules, basePct: real): Risk {
    if rs == [] then risk
    else RiskAfter(AfterTrades(risk, rs[..|rs| - 1], streak, basePct), rs[|rs| - 1], streak, basePct)
  }

  function WinPct(wins: int, streak: StreakRules, basePct: real): real {
    if wins < streak.winThreshold then basePct
    else MinR(streak.winCapPct, basePct + (wins - streak.winThreshold + 1) as real * streak.winStepPct)
  }

  lemma WinStep(risk: Risk, r: real, streak: StreakRules, basePct: real)
    requires r > 0.0
    ensures RiskAfter(risk, r, streak, basePct) == Risk(WinPct(risk.wins + 1, streak, basePct), risk.wins + 1, 0)
  {}

  /** After n wins in a row the risk has grown by one step per win from the threshold on, up to the cap. */
  lemma {:induction false} WinStreak(risk: Risk, rs: seq<real>, streak: StreakRules, basePct: real)
    requires rs != [] && forall r | r in rs :: r > 0.0
    ensures var n := risk.wins + |rs|;
            AfterTrades(risk, rs, streak, basePct) == Risk(WinPct(n, streak, basePct), n, 0)
    decreases |rs|
  {
    hide RiskAfter, WinPct;
    var n := |rs| - 1;
    assert rs[n] in rs;
    WinStep(AfterTrades(risk, rs[..n], streak, basePct), rs[n], streak, basePct);
    if n == 0 {
      assert rs[..0] == [];
    } else {
      assert forall r | r in rs[..n] :: r in rs;
      WinStreak(risk, rs[..n], streak, basePct);
    }
  }

  /** Any loss ends the wins; from the threshold on, losses in a row hold the risk at the loss percentage. */
  lemma {:induction false} LossStreak(risk: Risk, rs: seq<real>, streak: StreakRules, basePct: real)
    requires rs != [] && forall r | r in rs :: r <= 0.0
    ensures var e := AfterTrades(risk, rs, streak, basePct);
            var n := risk.losses + |rs|;
            && e.losses == n && e.wins == 0
            && e.currentPct == if n < streak.lossThreshold then basePct else streak.lossRiskPct
    decreases |rs|
  {
    var n := |rs| - 1;
    assert rs[n] in rs;
    if n == 0 {
    } else {
      assert forall r | r in rs[..n] :: r in rs;
      LossStreak(risk, rs[..n], streak, basePct);
    }
  }
}
