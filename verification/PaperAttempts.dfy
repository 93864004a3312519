/** Which signals are tried, on which bar and in which order, and which still wait. */
module PaperAttempts {
  import opened Values
  import opened Paper
  import opened PaperInvariants
  import opened PaperEntries

  predicate Trading(cfg: Config, mk: Market, bar: Bar) { InSession(cfg, mk.hour(bar.ts)) }

  /** The entries that the signals of a bar ask for. */
  function Asked(cfg: Config, bar: Bar, from: nat): seq<Pending>
    requires from <= |bar.signals|
  {
    seq(|bar.signals| - from, i requires 0 <= i < |bar.signals| - from =>
      Pending(bar.symbol, bar.signals[from + i], bar.atr, if cfg.nextBarEntry then None else Some(bar.close)))
  }

  /** Bar `k` gave its signals within trading hours, and of the first `n` bars none within them has come for its symbol
      since. */
  predicate StillWaits(cfg: Config, mk: Market, bars: seq<Bar>, n: nat, k: nat)
    requires k < n <= |bars|
  {
    && bars[k].featuresReady && Trading(cfg, mk, bars[k])
    && forall j | k < j < n && bars[j].symbol == bars[k].symbol :: !Trading(cfg, mk, bars[j])
  }

  /** What bar `k` and those after it have asked for and still waits after `n` bars, in order. */
  function Waiting(cfg: Config, mk: Market, bars: seq<Bar>, n: nat, k: nat): seq<Pending>
    requires k <= n <= |bars|
    decreases n - k
  {
    if k == n then []
    else (if StillWaits(cfg, mk, bars, n, k) then Asked(cfg, bars[k], 0) else []) + Waiting(cfg, mk, bars, n, k + 1)
  }

  /** The entries due on bar `n`: with entry on the next bar those of its symbol that waited, otherwise its own. */
  function Due(cfg: Config, mk: Market, bars: seq<Bar>, n: nat): seq<Pending>
    requires n < |bars|
  {
    if !Trading(cfg, mk, bars[n]) then []
    else if cfg.nextBarEntry then EntriesFor(Waiting(cfg, mk, bars, n, 0), bars[n].symbol, true)
    else if bars[n].featuresReady then Asked(cfg, bars[n], 0)
    else []
  }

  /** The entries are tried one after the other. */
  ghost predicate Attempts(cfg: Config, mk: Market, states: seq<Sim>, entries: seq<Pending>, bar: Bar) {
    |states| == |entries| + 1 && forall i | 0 <= i < |entries| ::
    states[i + 1] == OpenSpec(cfg, mk, states[i], entries[i], bar)
  }

  function Allowed(mk: Market, entries: seq<Pending>, ts: int): nat {
    if entries == [] then 0
    else
      var sig := entries[|entries| - 1].signal;
      Allowed(mk, entries[..|entries| - 1], ts) + if mk.entryAllowed(sig.strategy, sig.isLong, ts) then 1 else 0
  }

  /** How many entries were due on the first `n` bars with their strategy allowed to enter. */
  function Tried(cfg: Config, mk: Market, bars: seq<Bar>, n: nat): nat
    requires n <= |bars|
  {
    if n == 0 then 0
    else Tried(cfg, mk, bars, n - 1) + Allowed(mk, Due(cfg, mk, bars, n - 1), bars[n - 1].ts)
  }

  /* ---- what waits ---- */

  lemma {:induction false} EntriesOfBoth(a: seq<Pending>, b: seq<Pending>, symbol: string, same: bool)
    ensures EntriesFor(a + b, symbol, same) == EntriesFor(a, symbol, same) + EntriesFor(b, symbol, same)
  {
    hide EntriesFor;
    if a == [] {
      assert a + b == b;
      NothingDue(symbol);
    } else {
      assert (a + b)[1..] == a[1..] + b;
      EntriesFirst(a + b, symbol, same);
      EntriesFirst(a, symbol, same);
      EntriesOfBoth(a[1..], b, symbol, same);
    }
  }

  lemma {:induction false} EntriesOfOne(a: seq<Pending>, own: string, symbol: string, same: bool)
    requires forall e | e in a :: e.symbol == own
    ensures EntriesFor(a, symbol, same) == if (own == symbol) == same then a else []
  {
    if a != [] {
      assert a[0] in a && forall e | e in a[1..] :: e in a;
      EntriesOfOne(a[1..], own, symbol, same);
    }
  }

  /** A bar outside trading hours changes nothing; one within them ends the wait of its symbol and adds its own. */
  lemma {:induction false} WaitingStep(cfg: Config, mk: Market, bars: seq<Bar>, n: nat, k: nat)
    requires k <= n < |bars|
    ensures var rest := Waiting(cfg, mk, bars, n, k);
            Waiting(cfg, mk, bars, n + 1, k) ==
            if !Trading(cfg, mk, bars[n]) then rest
            else EntriesFor(rest, bars[n].symbol, false) + if bars[n].featuresReady then Asked(cfg, bars[n], 0) else []
    decreases n - k
  {
    hide Trading, Asked, EntriesFor, StillWaits, Waiting;
    WaitingFrom(cfg, mk, bars, n + 1, k);
    var (bar, more) := (bars[n], if bars[n].featuresReady then Asked(cfg, bars[n], 0) else []);
    if k == n {
      NothingDue(bar.symbol);
      NoneWaits(cfg, mk, bars, n);
      NoneWaits(cfg, mk, bars, n + 1);
      LastWaits(cfg, mk, bars, n);
    } else {
      var rest := Waiting(cfg, mk, bars, n, k + 1);
      var own := if StillWaits(cfg, mk, bars, n, k) then Asked(cfg, bars[k], 0) else [];
      WaitingFrom(cfg, mk, bars, n, k);
      WaitingStep(cfg, mk, bars, n, k + 1);
      WaitsLonger(cfg, mk, bars, n, k);
      forall e | e in own ensures e.symbol == bars[k].symbol { AskedOf(cfg, bars[k], e); }
      OwnFirst(own, rest, more, bars[k].symbol, bar.symbol);
    }
  }

  lemma WaitingFrom(cfg: Config, mk: Market, bars: seq<Bar>, n: nat, k: nat)
    requires k < n <= |bars|
    ensures Waiting(cfg, mk, bars, n, k) ==
            (if StillWaits(cfg, mk, bars, n, k) then Asked(cfg, bars[k], 0) else []) + Waiting(cfg, mk, bars, n, k + 1)
  {}

  lemma NoneWaits(cfg: Config, mk: Market, bars: seq<Bar>, n: nat)
    requires n <= |bars|
    ensures Waiting(cfg, mk, bars, n, n) == []
  {}

  lemma OwnFirst(own: seq<Pending>, rest: seq<Pending>, more: seq<Pending>, of: string, symbol: string)
    requires forall e | e in own :: e.symbol == of
    ensures EntriesFor(own + rest, symbol, false) + more ==
            (if of == symbol then [] else own) + (EntriesFor(rest, symbol, false) + more)
  {
    hide EntriesFor;
    EntriesOfOne(own, of, symbol, false);
    EntriesOfBoth(own, rest, symbol, false);
  }

  lemma LastWaits(cfg: Config, mk: Market, bars: seq<Bar>, n: nat)
    requires n < |bars|
    ensures StillWaits(cfg, mk, bars, n + 1, n) <==> bars[n].featuresReady && Trading(cfg, mk, bars[n])
  {}

  lemma WaitsLonger(cfg: Config, mk: Market, bars: seq<Bar>, n: nat, k: nat)
    requires k < n < |bars|
    ensures StillWaits(cfg, mk, bars, n + 1, k) <==>
            StillWaits(cfg, mk, bars, n, k) && (bars[n].symbol == bars[k].symbol ==> !Trading(cfg, mk, bars[n]))
  {}

  lemma AskedOf(cfg: Config, bar: Bar, e: Pending)
    requires e in Asked(cfg, bar, 0)
    ensures e.symbol == bar.symbol
  {}

  /* ---- one bar ---- */

  lemma OpenIgnoresPending(cfg: Config, mk: Market, s: Sim, e: Pending, bar: Bar, pending: seq<Pending>)
    ensures OpenSpec(cfg, mk, s.(pending := pending), e, bar) == OpenSpec(cfg, mk, s, e, bar).(pending := pending)
    ensures OpenSpec(cfg, mk, s, e, bar).pending == s.pending && OpenSpec(cfg, mk, s, e, bar).curve == s.curve
  {
    hide EntryPrice, StopPrice, Judge, NewTicket;
    var t := s.(pending := pending);
    var entry := EntryPrice(mk, e, bar, mk.slip(s.draws));
    var newPct := MinR(s.risk.currentPct, StrategyRiskPct(cfg, e.signal.strategy));
    JudgeIgnoresPending(cfg, mk, s, e.symbol, e.signal.strategy, newPct, pending);
    if StopPrice(mk, e, entry).Some? && StopPrice(mk, e, entry).value != entry {
      var distance := Abs(entry - StopPrice(mk, e, entry).value);
      assert NewTicket(cfg, mk, t, e, bar, entry, distance, newPct) == NewTicket(cfg, mk, s, e, bar, entry, distance,
                                                                                 newPct)
        by { TicketIgnoresPending(cfg, mk, s, e, bar, entry, distance, newPct, pending); }
    }
  }

  lemma TicketIgnoresPending(cfg: Config, mk: Market, s: Sim, e: Pending, bar: Bar, entry: real, distance: Distance,
                             newPct: real, pending: seq<Pending>)
    ensures NewTicket(cfg, mk, s.(pending := pending), e, bar, entry, distance, newPct) ==
            NewTicket(cfg, mk, s, e, bar, entry, distance, newPct)
  {}

  lemma JudgeIgnoresPending(cfg: Config, mk: Market, s: Sim, symbol: string, strategy: string, newPct: real,
                            pending: seq<Pending>)
    ensures Judge(cfg, mk, s.(pending := pending), symbol, strategy, newPct) == Judge(cfg, mk, s, symbol, strategy,
                                                                                      newPct)
  {
    hide OpenPct, OpenCount;
  }

  lemma {:induction false} AllInSteps(cfg: Config, mk: Market, s: Sim, entries: seq<Pending>, bar: Bar,
                                      pending: seq<Pending>)
    returns (states: seq<Sim>)
    ensures Attempts(cfg, mk, states, entries, bar) && states[0] == s.(pending := pending)
    ensures OpenAll(cfg, mk, s, entries, bar) == states[|entries|].(pending := s.pending)
    ensures states[|entries|].pending == pending && states[|entries|].curve == s.curve
    decreases |entries|
  {
    hide OpenSpec;
    if entries == [] {
      states := [s.(pending := pending)];
    } else {
      var next := OpenSpec(cfg, mk, s, entries[0], bar);
      OpenIgnoresPending(cfg, mk, s, entries[0], bar, pending);
      var rest := AllInSteps(cfg, mk, next, entries[1..], bar, pending);
      states := [s.(pending := pending)] + rest;
    }
  }

  /** Signals are queued, with entry on the next bar, or tried at once. */
  lemma {:induction false} SignalsAsk(cfg: Config, mk: Market, s: Sim, bar: Bar, from: nat)
    requires from <= |bar.signals|
    ensures SignalsSpec(cfg, mk, s, bar.signals[from..], bar) ==
            if cfg.nextBarEntry then s.(pending := s.pending + Asked(cfg, bar, from))
            else OpenAll(cfg, mk, s, Asked(cfg, bar, from), bar)
    decreases |bar.signals| - from
  {
    hide OpenSpec;
    if from == |bar.signals| {
      assert s.(pending := s.pending + Asked(cfg, bar, from)) == s;
    } else {
      var signals, asked := bar.signals[from..], Asked(cfg, bar, from);
      var next := SignalSpec(cfg, mk, s, signals[0], bar);
      assert signals[1..] == bar.signals[from + 1..];
      SignalsAsk(cfg, mk, next, bar, from + 1);
      assert asked[0] == EntryOf(cfg, signals[0], bar) && asked[1..] == Asked(cfg, bar, from + 1);
      assert asked == [asked[0]] + asked[1..];
      if cfg.nextBarEntry {
        assert s.pending + asked == (s.pending + [asked[0]]) + asked[1..];
      }
    }
  }

  /** After the exits, a bar tries what is due on it, and then leaves what waits and the new equity. */
  lemma BarInSteps(cfg: Config, mk: Market, s: Sim, bars: seq<Bar>, n: nat) returns (states: seq<Sim>)
    requires n < |bars| && s.pending == if cfg.nextBarEntry then Waiting(cfg, mk, bars, n, 0) else []
    requires !BarSpec(cfg, mk, s, bars[n]).raised
    ensures var (next, due) := (BarSpec(cfg, mk, s, bars[n]), Due(cfg, mk, bars, n));
            && !s.raised && Attempts(cfg, mk, states, due, bars[n])
            && states[0] == ExitSpec(cfg, mk, s, bars[n], 0).(pending := [])
            && next == states[|due|].(pending := next.pending, curve := s.curve + [next.equity])
            && next.pending == if cfg.nextBarEntry then Waiting(cfg, mk, bars, n + 1, 0) else []
  {
    hide ExitSpec, OpenAll, SignalsSpec, EntriesFor, Waiting, Asked, Attempts;
    var bar, due := bars[n], Due(cfg, mk, bars, n);
    var exited := ExitSpec(cfg, mk, s, bar, 0);
    ExitKeepsOrigins(cfg, mk, s, bar);
    WaitingStep(cfg, mk, bars, n, 0);
    NothingDue(bar.symbol);
    if !Trading(cfg, mk, bar) {
      NothingTried(cfg, mk, exited, bar);
      states := [exited.(pending := [])];
    } else {
      var rest := exited.(pending := EntriesFor(s.pending, bar.symbol, false));
      SignalsAsk(cfg, mk, if cfg.nextBarEntry then OpenAll(cfg, mk, rest, due, bar) else rest, bar, 0);
      assert bar.signals[0..] == bar.signals;
      states := AllInSteps(cfg, mk, rest, due, bar, []);
      NothingTried(cfg, mk, rest, bar);
    }
  }

  lemma NothingTried(cfg: Config, mk: Market, s: Sim, bar: Bar)
    ensures OpenAll(cfg, mk, s, [], bar) == s && Attempts(cfg, mk, [s.(pending := [])], [], bar)
  {}

  /* ---- every run ---- */

  /** After every run with entry on the next bar exactly the entries wait that no bar could have tried yet, in order;
      without it none do. */
  lemma {:induction false} WaitingExact(cfg: Config, mk: Market, bars: seq<Bar>, n: nat)
    requires n <= |bars| && !After(cfg, mk, bars[..n]).raised
    ensures After(cfg, mk, bars[..n]).pending == if cfg.nextBarEntry then Waiting(cfg, mk, bars, n, 0) else []
  {
    hide BarSpec;
    if n > 0 {
      assert bars[..n][..n - 1] == bars[..n - 1];
      StaysRaised(cfg, mk, After(cfg, mk, bars[..n - 1]), bars[n - 1]);
      WaitingExact(cfg, mk, bars, n - 1);
      var _ := BarInSteps(cfg, mk, After(cfg, mk, bars[..n - 1]), bars, n - 1);
    }
  }

  lemma StaysRaised(cfg: Config, mk: Market, s: Sim, bar: Bar)
    ensures s.raised ==> BarSpec(cfg, mk, s, bar) == s
  {
    hide ExitSpec, EntrySpec;
  }

  lemma RunInSteps(cfg: Config, mk: Market, bars: seq<Bar>, n: nat) returns (states: seq<Sim>)
    requires n < |bars| && !After(cfg, mk, bars[..n + 1]).raised
    ensures TriesDue(cfg, mk, bars, n, states)
  {
    hide BarSpec, Attempts, Due;
    assert bars[..n + 1][..n] == bars[..n];
    StaysRaised(cfg, mk, After(cfg, mk, bars[..n]), bars[n]);
    WaitingExact(cfg, mk, bars, n);
    states := BarInSteps(cfg, mk, After(cfg, mk, bars[..n]), bars, n);
  }

  /** Bar `n` closes what it closes, then tries what is due on it, one entry after the other, and nothing else. */
  ghost predicate TriesDue(cfg: Config, mk: Market, bars: seq<Bar>, n: nat, states: seq<Sim>)
    requires n < |bars|
  {
    var (s, next, due) := (After(cfg, mk, bars[..n]), After(cfg, mk, bars[..n + 1]), Due(cfg, mk, bars, n));
    && Attempts(cfg, mk, states, due, bars[n])
    && states[0] == ExitSpec(cfg, mk, s, bars[n], 0).(pending := [])
    && next == states[|due|].(pending := next.pending, curve := s.curve + [next.equity])
  }

  lemma EveryAttempt(cfg: Config, mk: Market, bars: seq<Bar>, n: nat)
    requires n < |bars| && !After(cfg, mk, bars[..n + 1]).raised
    ensures exists states :: TriesDue(cfg, mk, bars, n, states)
  {
    hide TriesDue;
    var states := RunInSteps(cfg, mk, bars, n);
    assert TriesDue(cfg, mk, bars, n, states);
  }

  /* ---- the draws ---- */

  lemma {:induction false} AttemptsDraw(cfg: Config, mk: Market, states: seq<Sim>, entries: seq<Pending>, bar: Bar)
    requires Attempts(cfg, mk, states, entries, bar) && !states[|entries|].raised
    ensures states[|entries|].draws == states[0].draws + Allowed(mk, entries, bar.ts)
    ensures states[|entries|].trades == states[0].trades
    decreases |entries|
  {
    hide OpenSpec;
    if entries != [] {
      var k := |entries| - 1;
      AttemptDraws(cfg, mk, states[k], entries[k], bar);
      AttemptsDraw(cfg, mk, states[..k + 1], entries[..k], bar);
    }
  }

  lemma AttemptDraws(cfg: Config, mk: Market, s: Sim, e: Pending, bar: Bar)
    ensures var next := OpenSpec(cfg, mk, s, e, bar);
            && (s.raised ==> next.raised) && next.trades == s.trades
            && (!s.raised ==>
                  next.draws == s.draws + if mk.entryAllowed(e.signal.strategy, e.signal.isLong, bar.ts) then 1 else 0)
  {
    hide Judge, EntryPrice, StopPrice;
  }

  lemma ExitsDraw(cfg: Config, mk: Market, s: Sim, bar: Bar)
    ensures var next := ExitSpec(cfg, mk, s, bar, 0); next.draws - |next.trades| == s.draws - |s.trades|
  {
    hide ExitTurn;
    var inv := (x: Sim) => x.draws - |x.trades| == s.draws - |s.trades|;
    forall x: Sim, i: nat | inv(x) && i < |x.open| ensures inv(ExitTurn(cfg, mk, x, bar, i)) {
      TurnDraws(cfg, mk, x, bar, i);
    }
    ExitKeeps(cfg, mk, inv, s, bar, 0);
  }

  lemma TurnDraws(cfg: Config, mk: Market, s: Sim, bar: Bar, i: nat)
    requires i < |s.open|
    ensures var next := ExitTurn(cfg, mk, s, bar, i); next.draws - |next.trades| == s.draws - |s.trades|
  {
    hide ExitPrice, TradeOf, Trailed, RiskAfter;
  }

  /** In every run one slippage is drawn for each trade, and one for each entry that was due where its strategy may
      enter: no such entry is ever left out, and none is tried twice. */
  lemma {:induction false} DrawsExact(cfg: Config, mk: Market, bars: seq<Bar>, n: nat)
    requires n <= |bars| && !After(cfg, mk, bars[..n]).raised
    ensures var s := After(cfg, mk, bars[..n]); s.draws == |s.trades| + Tried(cfg, mk, bars, n)
  {
    hide BarSpec, ExitSpec, Due, Allowed;
    if n > 0 {
      var s, due := After(cfg, mk, bars[..n - 1]), Due(cfg, mk, bars, n - 1);
      assert bars[..n][..n - 1] == bars[..n - 1];
      StaysRaised(cfg, mk, s, bars[n - 1]);
      DrawsExact(cfg, mk, bars, n - 1);
      var states := RunInSteps(cfg, mk, bars, n - 1);
      AttemptsDraw(cfg, mk, states, due, bars[n - 1]);
      ExitsDraw(cfg, mk, s, bars[n - 1]);
    }
  }
}
