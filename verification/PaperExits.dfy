/** When and at what price every position leaves. */
module PaperExits {
  import opened Values
  import opened Paper
  import opened PaperInvariants

  /* ---- one bar ---- */

  predicate ReachesStop(t: Ticket, stop: real, bar: Bar) { if t.isLong then bar.low <= stop else bar.high >= stop }

  predicate ReachesTarget(t: Ticket, bar: Bar) { if t.isLong then bar.high >= t.target else bar.low <= t.target }

  /** The bar ends the position whatever its stop: its target is reached, or its time is up. */
  predicate Due(t: Ticket, bar: Bar) { ReachesTarget(t, bar) || bar.ts >= t.expireAt }

  /** The price before costs. */
  function PriceOf(t: Trade): real { t.exit + Signed(t.ticket.isLong, t.cost) }

  /** The stop if the bar reached it, otherwise the target if it reached that, otherwise the close, when the time
      is up. */
  predicate ClosedAt(t: Trade, bar: Bar) {
    && t.closedAt == bar.ts
    && if ReachesStop(t.ticket, t.stop, bar) then PriceOf(t) == t.stop
       else if ReachesTarget(t.ticket, bar) then PriceOf(t) == t.ticket.target
       else bar.ts >= t.ticket.expireAt && PriceOf(t) == bar.close
  }

  /** Trailing takes the better of the old stop and the new one behind the bar; without it, or without a
      volatility, the stop stays. */
  lemma TrailedExact(cfg: Config, p: Position, bar: Bar)
    ensures var q := Trailed(cfg, p, bar);
            && q.ticket == p.ticket
            && if cfg.trailAtrMult.None? || bar.atr <= 0.0 then q.stop == p.stop
               else
                 var reach := bar.atr * cfg.trailAtrMult.value;
                 var behind := if reach < 0.05 then 0.05 else reach;
                 var trail := if p.ticket.isLong then bar.high - behind else bar.low + behind;
                 q.stop == if (if p.ticket.isLong then trail > p.stop else trail < p.stop) then trail else p.stop
  {}

  /** A bar closes a position exactly when it reaches the trailed stop or is due, and at the price for it. */
  lemma BarCloses(cfg: Config, p: Position, bar: Bar, cost: real)
    ensures var q := Trailed(cfg, p, bar);
            && q.ticket == p.ticket
            && (ExitPrice(q, bar).Some? <==> ReachesStop(p.ticket, q.stop, bar) || Due(p.ticket, bar))
            && (ExitPrice(q, bar).Some? ==> ClosedAt(TradeOf(cfg, q, ExitPrice(q, bar).value, cost, bar.ts), bar))
  {
    var q := Trailed(cfg, p, bar);
    if ExitPrice(q, bar).Some? {
      var t := TradeOf(cfg, q, ExitPrice(q, bar).value, cost, bar.ts);
      assert PriceOf(t) == ExitPrice(q, bar).value;
    }
  }

  /* ---- between bars ---- */

  /** No bar of its symbol since the position was opened, up to the n-th, was due. */
  ghost predicate NotDue(bars: seq<Bar>, t: Ticket, n: nat)
    requires n <= |bars|
  {
    forall j | t.bar <= j < n && bars[j].symbol == t.symbol :: !Due(t, bars[j])
  }

  /** Some bar of its symbol closed the trade, and it was the first one due since the position was opened. */
  ghost predicate ClosedByBar(bars: seq<Bar>, t: Trade) {
    exists j | t.ticket.bar <= j < |bars| ::
      bars[j].symbol == t.ticket.symbol && ClosedAt(t, bars[j]) && NotDue(bars, t.ticket, j)
  }

  ghost predicate Waiting(bars: seq<Bar>, p: Position) { p.ticket.bar <= |bars| && NotDue(bars, p.ticket, |bars|) }

  ghost predicate AllWaiting(bars: seq<Bar>, open: seq<Position>) { forall p | p in open :: Waiting(bars, p) }

  ghost predicate AllClosed(bars: seq<Bar>, trades: seq<Trade>) { forall t | t in trades :: ClosedByBar(bars, t) }

  /** Positions before `i` have been carried over the bar, the others not yet. */
  ghost predicate HalfWaiting(bars: seq<Bar>, bar: Bar, open: seq<Position>, i: nat)
    requires i <= |open|
  {
    && (forall k | 0 <= k < i :: Waiting(bars + [bar], open[k]))
    && (forall k | i <= k < |open| :: Waiting(bars, open[k]))
  }

  lemma ClosedLater(bars: seq<Bar>, bar: Bar, t: Trade)
    requires ClosedByBar(bars, t)
    ensures ClosedByBar(bars + [bar], t)
  {
    var more := bars + [bar];
    var j :| t.ticket.bar <= j < |bars| && bars[j].symbol == t.ticket.symbol && ClosedAt(t, bars[j])
             && NotDue(bars, t.ticket, j);
    assert forall k | 0 <= k < |bars| :: more[k] == bars[k];
    assert more[j] == bars[j] && NotDue(more, t.ticket, j);
  }

  /** A position the bar does not close, or does not concern, waits on. */
  lemma WaitsOn(cfg: Config, bars: seq<Bar>, bar: Bar, p: Position)
    requires Waiting(bars, p)
    ensures p.ticket.symbol != bar.symbol ==> Waiting(bars + [bar], p)
    ensures ExitPrice(Trailed(cfg, p, bar), bar).None? ==> Waiting(bars + [bar], Trailed(cfg, p, bar))
  {
    hide TradeOf;
    var more := bars + [bar];
    BarCloses(cfg, p, bar, 0.0);
    assert forall k | 0 <= k < |bars| :: more[k] == bars[k];
    assert more[|bars|] == bar;
  }

  lemma ClosesNow(cfg: Config, bars: seq<Bar>, bar: Bar, p: Position, cost: real)
    requires Waiting(bars, p) && p.ticket.symbol == bar.symbol && ExitPrice(Trailed(cfg, p, bar), bar).Some?
    ensures var q := Trailed(cfg, p, bar);
            ClosedByBar(bars + [bar], TradeOf(cfg, q, ExitPrice(q, bar).value, cost, bar.ts))
  {
    var q, more := Trailed(cfg, p, bar), bars + [bar];
    var t := TradeOf(cfg, q, ExitPrice(q, bar).value, cost, bar.ts);
    BarCloses(cfg, p, bar, cost);
    assert forall k | 0 <= k < |bars| :: more[k] == bars[k];
    assert more[|bars|] == bar && NotDue(more, t.ticket, |bars|) && t.ticket == p.ticket;
  }

  lemma {:induction false} ExitsWait(cfg: Config, mk: Market, s: Sim, bars: seq<Bar>, bar: Bar, i: nat)
    requires i <= |s.open| && HalfWaiting(bars, bar, s.open, i) && AllClosed(bars + [bar], s.trades)
    ensures var end := ExitSpec(cfg, mk, s, bar, i);
            AllWaiting(bars + [bar], end.open) && AllClosed(bars + [bar], end.trades)
    decreases |s.open| - i
  {
    hide Waiting, ClosedByBar, Trailed, TradeOf, ExitPrice, RiskAfter;
    if i == |s.open| {
    } else {
      var p := s.open[i];
      WaitsOn(cfg, bars, bar, p);
      if p.ticket.symbol != bar.symbol {
        ExitsWait(cfg, mk, s, bars, bar, i + 1);
      } else {
        var next := ExitTurn(cfg, mk, s, bar, i);
        if ExitPrice(Trailed(cfg, p, bar), bar).None? {
          ExitsWait(cfg, mk, next, bars, bar, i + 1);
        } else {
          ClosesNow(cfg, bars, bar, p, mk.spread(bar.symbol, bar.ts) + mk.slip(s.draws));
          assert forall k :: 0 <= k < i ==> next.open[k] == s.open[k];
          assert forall k :: i <= k < |next.open| ==> next.open[k] == s.open[k + 1];
          ExitsWait(cfg, mk, next, bars, bar, i);
        }
      }
    }
  }

  /* ---- entries ---- */

  lemma OpenWaits(cfg: Config, mk: Market, s: Sim, e: Pending, bar: Bar, bars: seq<Bar>)
    requires AllWaiting(bars, s.open) && |s.curve| == |bars|
    ensures var next := OpenSpec(cfg, mk, s, e, bar);
            AllWaiting(bars, next.open) && next.trades == s.trades && |next.curve| == |bars|
  {
    hide Judge, EntryPrice, StopPrice, Due;
  }

  lemma EntriesWait(cfg: Config, mk: Market, s: Sim, bar: Bar, bars: seq<Bar>)
    requires AllWaiting(bars, s.open) && |s.curve| == |bars|
    ensures var next := EntrySpec(cfg, mk, s, bar); AllWaiting(bars, next.open) && next.trades == s.trades
  {
    hide AllWaiting, OpenSpec, EntrySpec;
    var inv := (x: Sim) => AllWaiting(bars, x.open) && |x.curve| == |bars| && x.trades == s.trades;
    forall x, e | inv(x) ensures inv(OpenSpec(cfg, mk, x, e, bar)) { OpenWaits(cfg, mk, x, e, bar, bars); }
    EntryKeeps(cfg, mk, inv, s, bar);
  }

  /* ---- every run ---- */

  /** After the bars of every run: no position still open has seen a bar of its symbol at or past its expiry, or one
      that reached its target; and every trade was closed by the first such bar or by one that reached its stop
      before, at the stop, the target or the close, in this order. */
  lemma {:induction false} EveryExit(cfg: Config, mk: Market, bars: seq<Bar>)
    ensures var s := After(cfg, mk, bars); AllClosed(bars, s.trades) && (!s.raised ==> AllWaiting(bars, s.open))
    decreases |bars|
  {
    if bars == [] {
    } else {
      hide AllWaiting, AllClosed, EntrySpec, ExitSpec, HalfWaiting;
      var prev, bar := bars[..|bars| - 1], bars[|bars| - 1];
      var s := After(cfg, mk, prev);
      EveryExit(cfg, mk, prev);
      assert bars == prev + [bar];
      AllLater(prev, bar, s.trades);
      if !s.raised {
        AfterPoints(cfg, mk, prev);
        StartHalf(prev, bar, s.open);
        ExitsWait(cfg, mk, s, prev, bar, 0);
        ExitCurve(cfg, mk, s, bar, 0);
        EntriesWait(cfg, mk, ExitSpec(cfg, mk, s, bar, 0), bar, bars);
      }
    }
  }

  lemma StartHalf(bars: seq<Bar>, bar: Bar, open: seq<Position>)
    requires AllWaiting(bars, open)
    ensures HalfWaiting(bars, bar, open, 0)
  {}

  lemma AllLater(bars: seq<Bar>, bar: Bar, trades: seq<Trade>)
    requires AllClosed(bars, trades)
    ensures AllClosed(bars + [bar], trades)
  {
    hide ClosedByBar;
    forall t | t in trades ensures ClosedByBar(bars + [bar], t) { ClosedLater(bars, bar, t); }
  }

  /* ---- what is left at the end ---- */

  /** The trades of the residual close: the open positions in order, each at the last close of its symbol. */
  ghost predicate ClosedAtEnd(bars: seq<Bar>, ts: int, open: seq<Position>, trades: seq<Trade>) {
    && |trades| == |open|
    && forall k | 0 <= k < |open| ::
         var t := trades[k];
         && t.ticket == open[k].ticket && t.stop == open[k].stop && t.closedAt == ts
         && LastClose(bars, t.ticket.symbol) == Some(PriceOf(t))
  }

  lemma PriceIs(cfg: Config, p: Position, price: real, cost: real, ts: int)
    ensures var t := TradeOf(cfg, p, price, cost, ts);
            PriceOf(t) == price && t.ticket == p.ticket && t.stop == p.stop && t.closedAt == ts && t.cost == cost
  {}

  lemma AtEndCons(bars: seq<Bar>, ts: int, open: seq<Position>, trade: Trade, later: seq<Trade>)
    requires open != [] && ClosedAtEnd(bars, ts, open[1..], later)
    requires trade.ticket == open[0].ticket && trade.stop == open[0].stop && trade.closedAt == ts
    requires LastClose(bars, trade.ticket.symbol) == Some(PriceOf(trade))
    ensures ClosedAtEnd(bars, ts, open, [trade] + later)
  {
    hide LastClose, PriceOf;
    assert forall k | 0 < k < |open| :: open[k] == open[1..][k - 1] && ([trade] + later)[k] == later[k - 1];
  }

  lemma {:induction false} CloseAllAtEnd(cfg: Config, mk: Market, s: Sim, bars: seq<Bar>, ts: int)
    ensures var end := CloseAll(cfg, mk, s, bars, ts);
            && s.trades <= end.trades
            && (!end.raised ==> ClosedAtEnd(bars, ts, s.open, end.trades[|s.trades|..]))
    decreases |s.open|
  {
    hide LastClose, RiskAfter, TradeOf, PriceOf, ClosedAtEnd;
    if s.open == [] {
      NothingAtEnd(bars, ts);
      assert s.open == [] && s.trades[|s.trades|..] == [];
    } else if LastClose(bars, s.open[0].ticket.symbol).Some? {
      var p := s.open[0];
      var close := LastClose(bars, p.ticket.symbol).value;
      var cost := mk.spread(p.ticket.symbol, ts) + mk.slip(s.draws);
      var trade := TradeOf(cfg, p, close, cost, ts);
      PriceIs(cfg, p, close, cost, ts);
      var next := Booked(cfg, s.(open := s.open[1..]), trade);
      CloseAllAtEnd(cfg, mk, next, bars, ts);
      var end := CloseAll(cfg, mk, next, bars, ts);
      if !end.raised {
        AtEndCons(bars, ts, s.open, trade, end.trades[|next.trades|..]);
        assert end.trades[|s.trades|..] == [trade] + end.trades[|next.trades|..];
      }
    }
  }

  lemma NothingAtEnd(bars: seq<Bar>, ts: int)
    ensures ClosedAtEnd(bars, ts, [], [])
  {}

  /** A whole run that does not raise: the trades its bars closed, as above, and then what was left, at the last
      close of its symbol and the time of the last bar. */
  lemma RunExits(cfg: Config, mk: Market, bars: seq<Bar>)
    ensures var (s, end) := (After(cfg, mk, bars), RunSpec(cfg, mk, bars));
            && s.trades <= end.trades && AllClosed(bars, s.trades)
            && (!end.raised && bars != [] ==>
                  AllWaiting(bars, s.open)
                  && ClosedAtEnd(bars, bars[|bars| - 1].ts, s.open, end.trades[|s.trades|..]))
  {
    hide After, CloseAll, AllWaiting, AllClosed;
    EveryExit(cfg, mk, bars);
    var s := After(cfg, mk, bars);
    if bars != [] && !s.raised {
      CloseAllAtEnd(cfg, mk, s, bars, bars[|bars| - 1].ts);
      CloseAllRaised(cfg, mk, s, bars, bars[|bars| - 1].ts);
    }
  }

  lemma CloseAllRaised(cfg: Config, mk: Market, s: Sim, bars: seq<Bar>, ts: int)
    ensures s.open == [] ==> CloseAll(cfg, mk, s, bars, ts) == s
  {}
}
