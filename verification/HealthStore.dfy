/** The health state store: a persisted summary kept beside the full history. */
module HealthStore {
  import opened Values
  import opened PyText

  /* ---- business days ---- */

  // Days are ordinals with day 1 a Monday, so weekday() is (day + 6) % 7.
  predicate IsBusiness(day: int) { (day + 6) % 7 < 5 }

  function CountDays(start: int, end: int): nat
    decreases end - start
  {
    if end <= start then 0 else CountDays(start, end - 1) + if IsBusiness(end) then 1 else 0
  }

  method BusinessDaysSince(start: Option<int>, end: int) returns (count: nat)
    ensures count == if start.None? then 0 else CountDays(start.value, end)
  {
    count := 0;
    if start.None? || end <= start.value { return; }
    var cursor := start.value + 1;
    while cursor <= end
      invariant start.value < cursor <= end + 1 && count == CountDays(start.value, cursor - 1)
    {
      if IsBusiness(cursor) { count := count + 1; }
      cursor := cursor + 1;
    }
  }

  /** Business days up to and including the day, counted from a fixed Monday. */
  function Weeks(day: int): int {
    var n := day + 7;
    5 * (n / 7) + if n % 7 < 5 then n % 7 else 5
  }

  lemma WeeksStep(day: int)
    ensures Weeks(day) == Weeks(day - 1) + if IsBusiness(day) then 1 else 0
  {
    var n := day + 6;
    assert (n + 1) / 7 == if n % 7 == 6 then n / 7 + 1 else n / 7;
  }

  /** The day-by-day loop is five per whole week plus the part week, in constant time. */
  lemma {:induction false} ClosedForm(start: int, end: int)
    requires start <= end
    ensures CountDays(start, end) == Weeks(end) - Weeks(start)
    decreases end - start
  {
    if start < end {
      ClosedForm(start, end - 1);
      WeeksStep(end);
    }
  }

  /** Additive over adjacent intervals, and monotone in the end date. */
  lemma CountAdds(a: int, b: int, c: int)
    requires a <= b <= c
    ensures CountDays(a, c) == CountDays(a, b) + CountDays(b, c)
    ensures CountDays(a, b) <= CountDays(a, c)
  {
    ClosedForm(a, b);
    ClosedForm(b, c);
    ClosedForm(a, c);
  }

  /* ---- the store ---- */

  // Timestamps are seconds from the start of day 0; a day has 86400.
  const DAY := 86_400

  datatype Logged = Logged(ts: int, to: string)

  datatype Summary = Summary(state: string, lastOk: Option<int>, degraded30d: nat, businessDays: nat)

  predicate IsOk(e: Logged) { Lower(e.to) == "ok" }

  predicate IsDegraded(e: Logged) { Lower(e.to) in {"degraded", "soft_stop", "hard_stop"} }

  /** The newest ok timestamp, wherever it stands in the history. */
  function LatestOk(history: seq<Logged>): Option<int> {
    if history == [] then None
    else
      var e := history[|history| - 1];
      var before := LatestOk(history[..|history| - 1]);
      if !IsOk(e) then before else if before.None? || e.ts > before.value then Some(e.ts) else before
  }

  function Degraded(history: seq<Logged>, now: int): nat {
    if history == [] then 0
    else
      var e := history[|history| - 1];
      Degraded(history[..|history| - 1], now) + if e.ts >= now - 30 * DAY && IsDegraded(e) then 1 else 0
  }

  lemma {:induction false} LatestOkIsNewest(history: seq<Logged>)
    ensures match LatestOk(history)
            case None => forall e | e in history :: Lower(e.to) != "ok"
            case Some(t) => (exists e :: e in history && Lower(e.to) == "ok" && e.ts == t)
                            && forall e | e in history && Lower(e.to) == "ok" :: e.ts <= t
  {
    hide Lower;
    if history == [] {
    } else {
      var prev, last := history[..|history| - 1], history[|history| - 1];
      LatestOkIsNewest(prev);
      assert history == prev + [last];
      match LatestOk(prev) {
        case None =>
        case Some(t) =>
          var e :| e in prev && IsOk(e) && e.ts == t;
          assert e in history;
      }
    }
  }

  /** The places of the degraded, soft-stop and hard-stop events of the thirty days up to now. */
  ghost function DegradedPlaces(history: seq<Logged>, now: int): set<nat> {
    set i: nat | i < |history| && now - history[i].ts <= 2_592_000
                 && Lower(history[i].to) in {"degraded", "soft_stop", "hard_stop"}
  }

  /** The count is the number of these places. */
  lemma {:induction false} DegradedCounts(history: seq<Logged>, now: int)
    ensures Degraded(history, now) == |DegradedPlaces(history, now)|
  {
    hide Lower;
    if history == [] {
      assert DegradedPlaces(history, now) == {};
    } else {
      var n: nat := |history| - 1;
      DegradedCounts(history[..n], now);
      var before := DegradedPlaces(history[..n], now);
      assert history[..n] + [history[n]] == history;
      if history[n].ts >= now - 30 * DAY && IsDegraded(history[n]) {
        assert DegradedPlaces(history, now) == before + {n};
      } else {
        assert DegradedPlaces(history, now) == before;
      }
    }
  }

  /** The summary recomputed from the whole history at a given time. */
  function Recomputed(history: seq<Logged>, state: string, now: int): Summary {
    var ok := LatestOk(history);
    Summary(state, ok, Degraded(history, now), if ok.None? then 0 else CountDays(ok.value / DAY, now / DAY))
  }

  class HealthStateStore {
    var history: seq<Logged>
    var summary: Summary

    constructor ()
      ensures history == [] && summary == Summary("ok", None, 0, 0)
    {
      history, summary := [], Summary("ok", None, 0, 0);
    }

    method LatestOkTs() returns (t: Option<int>)
      ensures t == LatestOk(history)
    {
      t := None;
      for i := 0 to |history|
        invariant t == LatestOk(history[..i])
      {
        assert history[..i + 1][..i] == history[..i];
        if IsOk(history[i]) && (t.None? || history[i].ts > t.value) { t := Some(history[i].ts); }
      }
      assert history[..|history|] == history;
    }

    method RollingDegradedCount(now: int) returns (count: nat)
      ensures count == Degraded(history, now)
    {
      count := 0;
      var cutoff := now - 30 * DAY;
      for i := 0 to |history|
        invariant count == Degraded(history[..i], now)
      {
        assert history[..i + 1][..i] == history[..i];
        if history[i].ts < cutoff { continue; }
        if IsDegraded(history[i]) { count := count + 1; }
      }
      assert history[..|history|] == history;
    }

    /** An ok timestamp the history does not hold is kept; otherwise everything is recomputed. */
    method RefreshCounters(s: Summary, now: int) returns (r: Summary)
      ensures r == var ok := if LatestOk(history).Some? then LatestOk(history) else s.lastOk;
                   Summary(s.state, ok, Degraded(history, now),
                           if ok.None? then 0 else CountDays(ok.value / DAY, now / DAY))
    {
      r := s;
      var ok := LatestOkTs();
      if ok.Some? { r := r.(lastOk := ok); }
      var degraded := RollingDegradedCount(now);
      var days := BusinessDaysSince(if r.lastOk.Some? then Some(r.lastOk.value / DAY) else None, now / DAY);
      r := r.(degraded30d := degraded, businessDays := days);
    }

    /** `to` is None when the event names no known state, and the current one is kept. */
    method RecordTransition(ts: int, to: Option<string>)
      modifies this
      ensures history == old(history) + [Logged(ts, if to.Some? then to.value else old(summary.state))]
      ensures summary == RefreshedAfter(old(summary), history, ts)
    {
      var s := summary;
      var state := if to.Some? then to.value else s.state;
      history := history + [Logged(ts, state)];
      if state == "ok" { s := s.(lastOk := Some(ts)); }
      s := s.(state := state);
      s := RefreshCounters(s, ts);
      summary := s;
      assert history[|history| - 1] == Logged(ts, state);
    }
  }

  /** The summary after an event has been appended to the history. */
  function RefreshedAfter(s: Summary, history: seq<Logged>, ts: int): Summary
    requires history != []
  {
    var state := history[|history| - 1].to;
    var own := if state == "ok" then Some(ts) else s.lastOk;
    var ok := if LatestOk(history).Some? then LatestOk(history) else own;
    Summary(state, ok, Degraded(history, ts), if ok.None? then 0 else CountDays(ok.value / DAY, ts / DAY))
  }

  datatype Event = Event(ts: int, to: Option<string>)

  datatype Store = Store(history: seq<Logged>, summary: Summary)

  function Record(st: Store, e: Event): Store {
    var history := st.history + [Logged(e.ts, if e.to.Some? then e.to.value else st.summary.state)];
    Store(history, RefreshedAfter(st.summary, history, e.ts))
  }

  function Recorded(events: seq<Event>): Store {
    if events == [] then Store([], Summary("ok", None, 0, 0))
    else Record(Recorded(events[..|events| - 1]), events[|events| - 1])
  }

  /** The history is the events in order, each with its state, or the one before it if it names none, and ok before
      the first. */
  lemma {:induction false} HistoryIsEvents(events: seq<Event>, i: nat)
    requires i < |events|
    ensures var st := Recorded(events);
            && |st.history| == |events| && st.summary.state == st.history[|events| - 1].to
            && st.history[i].ts == events[i].ts
            && st.history[i].to == if events[i].to.Some? then events[i].to.value
                                   else if i == 0 then "ok" else st.history[i - 1].to
    decreases |events|
  {
    hide RefreshedAfter;
    var n := |events| - 1;
    var prev := Recorded(events[..n]);
    RefreshedState(prev.summary, Recorded(events).history, events[n].ts);
    if n > 0 {
      HistoryIsEvents(events[..n], if i < n then i else 0);
      assert events[..n][if i < n then i else 0] == events[if i < n then i else 0];
    }
  }

  lemma RefreshedState(s: Summary, history: seq<Logged>, ts: int)
    requires history != []
    ensures RefreshedAfter(s, history, ts).state == history[|history| - 1].to
  {}

  lemma OkIsLower()
    ensures Lower("ok") == "ok"
  {}

  /** After any run of transitions, in any order of timestamps, the persisted summary is what the full
      history gives at the time of the last event. */
  lemma {:induction false} SummaryIsRecomputed(events: seq<Event>)
    ensures var st := Recorded(events);
            && st.summary.lastOk == LatestOk(st.history)
            && (events != [] ==> st.summary == Recomputed(st.history, st.summary.state, events[|events| - 1].ts))
    decreases |events|
  {
    if events == [] {
    } else {
      hide CountDays, Degraded, IsDegraded;
      var prev, e := Recorded(events[..|events| - 1]), events[|events| - 1];
      SummaryIsRecomputed(events[..|events| - 1]);
      var st := Recorded(events);
      assert st.history[..|prev.history|] == prev.history;
      OkIsLower();
    }
  }
}
