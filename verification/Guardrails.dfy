/** Health severity and the guardrail summary. */
module Guardrails {
  import opened Values

  /* ---- severity ---- */

  datatype Severity = Ok | Warn | Degraded | SoftStop | HardStop

  function Rank(s: Severity): nat {
    match s case Ok => 0 case Warn => 1 case Degraded => 2 case SoftStop => 3 case HardStop => 4
  }

  /** The later of the two in the severity order. */
  function Join(a: Severity, b: Severity): (r: Severity)
    ensures (r == a || r == b) && Rank(r) >= Rank(a) && Rank(r) >= Rank(b)
  {
    if Rank(a) >= Rank(b) then a else b
  }

  // An unknown level counts as degraded.
  function StatusOf(level: string): Severity {
    if level == "ok" || level == "info" then Ok
    else if level == "warn" || level == "warning" then Warn
    else if level == "soft_stop" || level == "critical" then SoftStop
    else if level == "hard_stop" || level == "fatal" then HardStop
    else Degraded
  }

  /* ---- the monitor ---- */

  datatype Reason = Reason(code: string, level: string)

  datatype Health = Health(status: Severity, reasons: seq<Reason>)

  // `logged` says whether the event could be written.
  datatype Op = Raise(level: string, code: string, logged: bool) | Clear(code: string) | ClearAll

  /** The first reason with the code, or the length. */
  function FindReason(reasons: seq<Reason>, code: string): (i: nat)
    ensures i <= |reasons| && (i < |reasons| ==> reasons[i].code == code)
    ensures forall j :: 0 <= j < i ==> reasons[j].code != code
  {
    if reasons == [] || reasons[0].code == code then 0 else 1 + FindReason(reasons[1..], code)
  }

  function Noted(reasons: seq<Reason>, code: string, level: string): seq<Reason> {
    var i := FindReason(reasons, code);
    if i < |reasons| then reasons[i := Reason(code, level)] else reasons + [Reason(code, level)]
  }

  function Dropped(reasons: seq<Reason>, code: string): seq<Reason> {
    if reasons == [] then [] else (if reasons[0].code != code then [reasons[0]] else []) + Dropped(reasons[1..], code)
  }

  function JoinAll(reasons: seq<Reason>): Severity {
    if reasons == [] then Ok else Join(JoinAll(reasons[..|reasons| - 1]), StatusOf(reasons[|reasons| - 1].level))
  }

  /** A failed write returns before the level is merged into the status. */
  function Step(h: Health, op: Op): Health {
    match op
    case Raise(level, code, logged) =>
      Health(if logged then Join(h.status, StatusOf(level)) else h.status, Noted(h.reasons, code, level))
    case Clear(code) => Health(JoinAll(Dropped(h.reasons, code)), Dropped(h.reasons, code))
    case ClearAll => Health(Ok, [])
  }

  function Run(h: Health, ops: seq<Op>): Health {
    if ops == [] then h else Step(Run(h, ops[..|ops| - 1]), ops[|ops| - 1])
  }

  class HealthMonitor {
    var status: Severity
    var reasons: seq<Reason>

    function Now(): Health
      reads this
    {
      Health(status, reasons)
    }

    constructor ()
      ensures Now() == Health(Ok, [])
    {
      status, reasons := Ok, [];
    }

    method RaiseCondition(level: string, code: string, logged: bool)
      modifies this
      ensures Now() == Step(old(Now()), Raise(level, code, logged))
    {
      var i := 0;
      while i < |reasons| && reasons[i].code != code
        invariant i <= |reasons| && forall j | 0 <= j < i :: reasons[j].code != code
      {
        i := i + 1;
      }
      if i < |reasons| {
        reasons := reasons[i := Reason(code, level)];
      } else {
        reasons := reasons + [Reason(code, level)];
      }
      if logged { status := Join(status, StatusOf(level)); }
    }

    method RecomputeStatus() returns (s: Severity)
      ensures s == JoinAll(reasons)
    {
      s := Ok;
      for i := 0 to |reasons|
        invariant s == JoinAll(reasons[..i])
      {
        assert reasons[..i + 1][..i] == reasons[..i];
        s := Join(s, StatusOf(reasons[i].level));
      }
      assert reasons[..|reasons|] == reasons;
    }

    method ClearReason(code: Option<string>)
      modifies this
      ensures Now() == Step(old(Now()), if code.None? then ClearAll else Clear(code.value))
    {
      if code.None? {
        status, reasons := Ok, [];
        return;
      }
      reasons := Dropped(reasons, code.value);
      if reasons == [] {
        status := Ok;
      } else {
        status := RecomputeStatus();
      }
    }
  }

  ghost predicate Dominates(h: Health) { forall r | r in h.reasons :: Rank(StatusOf(r.level)) <= Rank(h.status) }

  lemma NotedMembers(reasons: seq<Reason>, code: string, level: string)
    ensures Reason(code, level) in Noted(reasons, code, level)
    ensures forall r | r in Noted(reasons, code, level) :: r in reasons || r == Reason(code, level)
    ensures forall r | r in reasons :: r.code != code ==> r in Noted(reasons, code, level)
  {
    var i, noted := FindReason(reasons, code), Noted(reasons, code, level);
    assert if i < |reasons| then noted[i] == Reason(code, level) else noted[|reasons|] == Reason(code, level);
    forall r | r in reasons && r.code != code ensures r in noted {
      var k :| 0 <= k < |reasons| && reasons[k] == r;
      assert noted[k] == r;
    }
  }

  lemma {:induction false} JoinAllIsLeast(reasons: seq<Reason>, bound: Severity)
    ensures Rank(JoinAll(reasons)) <= Rank(bound) <==> forall r | r in reasons :: Rank(StatusOf(r.level)) <= Rank(bound)
  {
    hide StatusOf;
    if reasons == [] {
    } else {
      var prev, last := reasons[..|reasons| - 1], reasons[|reasons| - 1];
      JoinAllIsLeast(prev, bound);
      assert reasons == prev + [last];
    }
  }

  /** One step keeps the status above every reason, unless a write fails for a level above it. */
  lemma StepDominates(h: Health, op: Op)
    requires Dominates(h)
    ensures Dominates(Step(h, op)) <==> (op.Raise? ==> op.logged || Rank(StatusOf(op.level)) <= Rank(h.status))
  {
    hide StatusOf;
    match op
    case Raise(level, code, logged) => NotedMembers(h.reasons, code, level);
    case Clear(code) => JoinAllIsLeast(Dropped(h.reasons, code), JoinAll(Dropped(h.reasons, code)));
    case ClearAll =>
  }

  lemma RunStep(h: Health, ops: seq<Op>, k: nat)
    requires k < |ops|
    ensures Run(h, ops[..k + 1]) == Step(Run(h, ops[..k]), ops[k])
  {
    assert ops[..k + 1][..k] == ops[..k];
  }

  /** The step is a raise that could not be written, above the status it meets. */
  predicate Lost(h: Health, op: Op) { op.Raise? && !op.logged && Rank(StatusOf(op.level)) > Rank(h.status) }

  /** The status dominates every reason at every moment of a run exactly when no step of it loses a level. */
  lemma {:induction false} RunDominatesIff(h: Health, ops: seq<Op>)
    requires Dominates(h)
    ensures (forall k | 0 <= k <= |ops| :: Dominates(Run(h, ops[..k]))) <==>
            (forall k | 0 <= k < |ops| :: !Lost(Run(h, ops[..k]), ops[k]))
  {
    hide Step, Run, Dominates, StatusOf;
    if forall k | 0 <= k <= |ops| :: Dominates(Run(h, ops[..k])) {
      forall k | 0 <= k < |ops| ensures !Lost(Run(h, ops[..k]), ops[k]) {
        StepDominates(Run(h, ops[..k]), ops[k]);
        RunStep(h, ops, k);
        assert Dominates(Run(h, ops[..k + 1]));
      }
    }
    if forall k | 0 <= k < |ops| :: !Lost(Run(h, ops[..k]), ops[k]) {
      forall k | 0 <= k <= |ops| ensures Dominates(Run(h, ops[..k])) { NeverLost(h, ops, k); }
    }
  }

  lemma {:induction false} NeverLost(h: Health, ops: seq<Op>, k: nat)
    requires Dominates(h) && k <= |ops|
    requires forall k | 0 <= k < |ops| :: !Lost(Run(h, ops[..k]), ops[k])
    ensures Dominates(Run(h, ops[..k]))
  {
    hide Step, Dominates, StatusOf;
    if k == 0 {
      assert ops[..0] == [];
    } else {
      NeverLost(h, ops, k - 1);
      StepDominates(Run(h, ops[..k - 1]), ops[k - 1]);
      RunStep(h, ops, k - 1);
    }
  }

  /** What a written raise does to the status, level by level: it never falls, it rises to at least the level's
      place in the order, and from ok it is exactly that; a level nobody knows counts as degraded. */
  lemma RaiseTo(h: Health, level: string, code: string)
    ensures var status := Step(h, Raise(level, code, true)).status;
            var place := if level in {"ok", "info"} then 0 else if level in {"warn", "warning"} then 1
                         else if level in {"soft_stop", "critical"} then 3
                         else if level in {"hard_stop", "fatal"} then 4 else 2;
            && Rank(status) == MaxI(Rank(h.status), place)
            && (place == 0 ==> status == h.status)
            && (h.status.Ok? ==> status == [Ok, Warn, Degraded, SoftStop, HardStop][place])
  {}

  /** So a written hard stop halts with exit code 63 whatever else is the case, and every level but ok and info
      guards the board and leaves at least 21. */
  lemma RaiseStops(h: Health, level: string, code: string, s: Signals)
    ensures var x := Summary(Step(h, Raise(level, code, true)).status, s);
            && (level in {"hard_stop", "fatal"} ==> x.board.Halted? && x.exitCode == 63)
            && (level !in {"ok", "info"} ==> !x.board.NormalMode? && x.exitCode >= 21)
  {
    hide StatusOf;
    RaiseTo(h, level, code);
  }

  /** Clearing a code keeps exactly the reasons with other codes, in order. */
  lemma {:induction false} ClearKeepsOthers(reasons: seq<Reason>, code: string, r: Reason)
    ensures r in Dropped(reasons, code) <==> r in reasons && r.code != code
    ensures (forall x | x in reasons :: x.code != code) ==> Dropped(reasons, code) == reasons
  {
    if reasons == [] {
    } else {
      ClearKeepsOthers(reasons[1..], code, r);
    }
  }

  ghost predicate OneEach(reasons: seq<Reason>) {
    forall i, j :: 0 <= i < j < |reasons| ==> reasons[i].code != reasons[j].code
  }

  /** Noting a code replaces its reason, adds it when there is none, and leaves the others. */
  lemma NotedExactly(reasons: seq<Reason>, code: string, level: string)
    requires OneEach(reasons)
    ensures OneEach(Noted(reasons, code, level))
    ensures forall r :: r in Noted(reasons, code, level) <==>
                        r == Reason(code, level) || (r in reasons && r.code != code)
  {
    NotedMembers(reasons, code, level);
    var i, noted := FindReason(reasons, code), Noted(reasons, code, level);
    forall r | r in noted ensures r == Reason(code, level) || r.code != code {
      var k :| 0 <= k < |noted| && noted[k] == r;
      if k != i { assert noted[k] == reasons[k]; }
    }
  }

  lemma {:induction false} DroppedOneEach(reasons: seq<Reason>, code: string)
    requires OneEach(reasons)
    ensures OneEach(Dropped(reasons, code))
  {
    if reasons == [] {
    } else {
      var rest := Dropped(reasons[1..], code);
      DroppedOneEach(reasons[1..], code);
      forall k | 0 <= k < |rest| ensures rest[k].code != reasons[0].code {
        ClearKeepsOthers(reasons[1..], code, rest[k]);
        var n :| 0 <= n < |reasons[1..]| && reasons[1..][n] == rest[k];
        assert reasons[n + 1] == rest[k];
      }
    }
  }

  /** The level of the last raise of the code, unless it was cleared since. */
  ghost function Standing(ops: seq<Op>, code: string): Option<string> {
    if ops == [] then None
    else
      match ops[|ops| - 1]
      case Raise(level, c, _) => if c == code then Some(level) else Standing(ops[..|ops| - 1], code)
      case Clear(c) => if c == code then None else Standing(ops[..|ops| - 1], code)
      case ClearAll => None
  }

  /** In every run there is at most one reason a code, and a code's level is the one it was last raised with. */
  lemma {:induction false} RunReasons(ops: seq<Op>, code: string)
    ensures OneEach(Run(Health(Ok, []), ops).reasons)
    ensures forall level ::
              Reason(code, level) in Run(Health(Ok, []), ops).reasons <==> Standing(ops, code) == Some(level)
    decreases |ops|
  {
    hide JoinAll, StatusOf;
    if ops == [] {
    } else {
      var prev, last := ops[..|ops| - 1], ops[|ops| - 1];
      RunReasons(prev, code);
      var reasons := Run(Health(Ok, []), prev).reasons;
      match last
      case Raise(level, c, _) => NotedExactly(reasons, c, level);
      case Clear(c) =>
        DroppedOneEach(reasons, c);
        forall level
          ensures Reason(code, level) in Dropped(reasons, c) <==> Reason(code, level) in reasons && code != c
        {
          ClearKeepsOthers(reasons, c, Reason(code, level));
        }
      case ClearAll =>
    }
  }

  predicate Logged(ops: seq<Op>) { forall op | op in ops :: op.Raise? ==> op.logged }

  /** So from the start, while event writes succeed, the status dominates every current reason. */
  lemma RunDominates(ops: seq<Op>)
    requires Logged(ops)
    ensures Dominates(Run(Health(Ok, []), ops))
  {
    hide Run, Dominates;
    assert Dominates(Health(Ok, [])) by { NothingToDominate(); }
    RunDominatesIff(Health(Ok, []), ops);
    assert ops[..|ops|] == ops;
  }

  lemma NothingToDominate()
    ensures Dominates(Health(Ok, []))
  {}

  /** Between clears the status is the least one above where it stood and every level raised and written since. */
  lemma {:induction false} StatusBetweenClears(h: Health, ops: seq<Op>, bound: Severity)
    requires forall op | op in ops :: op.Raise?
    ensures Rank(Run(h, ops).status) <= Rank(bound) <==>
            && Rank(h.status) <= Rank(bound)
            && forall op | op in ops && op.logged :: Rank(StatusOf(op.level)) <= Rank(bound)
  {
    hide StatusOf;
    if ops == [] {
    } else {
      var last := ops[|ops| - 1];
      StatusBetweenClears(h, ops[..|ops| - 1], bound);
      assert last in ops && forall op | op in ops :: op in ops[..|ops| - 1] || op == last;
    }
  }

  lemma {:induction false} RunAppend(h: Health, a: seq<Op>, b: seq<Op>)
    ensures Run(h, a + b) == Run(Run(h, a), b)
    decreases |b|
  {
    hide Step;
    if b == [] {
      assert a + b == a;
    } else {
      assert (a + b)[..|a + b| - 1] == a + b[..|b| - 1];
      RunAppend(h, a, b[..|b| - 1]);
    }
  }

  /** So in any run, from its last clear on: the status is the least one above the reasons the clear left and
      every level raised and written since. */
  lemma StatusSinceClear(h: Health, before: seq<Op>, clear: Op, raises: seq<Op>, bound: Severity)
    requires !clear.Raise? && forall op | op in raises :: op.Raise?
    ensures var kept := Run(h, before + [clear]).reasons;
            Rank(Run(h, before + [clear] + raises).status) <= Rank(bound) <==>
            && (forall r | r in kept :: Rank(StatusOf(r.level)) <= Rank(bound))
            && (forall op | op in raises && op.logged :: Rank(StatusOf(op.level)) <= Rank(bound))
  {
    hide StatusOf, JoinAll;
    var start := Run(h, before + [clear]);
    assert (before + [clear])[..|before|] == before;
    RunAppend(h, before + [clear], raises);
    StatusBetweenClears(start, raises, bound);
    JoinAllIsLeast(start.reasons, bound);
    JoinAllNothing();
  }

  lemma JoinAllNothing()
    ensures JoinAll([]) == Ok
  {}

  /* ---- the guardrail summary ---- */

  function NormaliseSpread(state: string): string {
    if state == "halt" || state == "block" then "block"
    else if state == "watch" || state == "cooldown" then "cooldown"
    else state
  }

  datatype Board = NormalMode | Guarded | Halted

  function BoardRank(b: Board): nat { match b case NormalMode => 0 case Guarded => 1 case Halted => 2 }

  datatype Snapshot = Snapshot(board: Board, spread: string, reduceOnly: bool, exitCode: int)

  datatype Signals = Signals(killSwitch: string, spread: string, liquidity: string, reduceOnly: bool)

  predicate Uneasy(status: Severity) { status.Warn? || status.Degraded? || status.SoftStop? }

  function ExitCode(status: Severity, killSwitch: string, spread: string, reduceOnly: bool): int {
    if status.HardStop? || killSwitch == "hard_stop" then 63
    else if killSwitch == "soft_stop" then 62
    else if spread == "block" then 62
    else if spread == "cooldown" || reduceOnly || Uneasy(status) then 21
    else 0
  }

  function Summary(status: Severity, s: Signals): Snapshot {
    var spread := NormaliseSpread(s.spread);
    var board :=
      if s.killSwitch == "hard_stop" || status.HardStop? then Halted
      else if spread != "normal" || s.reduceOnly || s.liquidity in {"guarded", "halted"} || Uneasy(status) then Guarded
      else NormalMode;
    var reduceOnly := s.reduceOnly || board.Guarded?;
    Snapshot(board, spread, reduceOnly, ExitCode(status, s.killSwitch, spread, reduceOnly))
  }

  /** Halted exactly when the exit code is 63; guarded means reduce-only and 21 or 62; normal means 0 or 62. */
  lemma SummaryConsistent(status: Severity, s: Signals)
    ensures var x := Summary(status, s);
            && (x.board.Halted? <==> x.exitCode == 63)
            && (x.board.Guarded? ==> x.reduceOnly && x.exitCode in {21, 62})
            && (x.board.NormalMode? ==> !x.reduceOnly && x.exitCode == if s.killSwitch == "soft_stop" then 62 else 0)
  {}

  /** What the inputs mean for the exit code and the board, from the strings they come as: a hard stop, else a
      soft-stop switch or a blocked spread, else anything that is not clear. */
  lemma SummaryTable(status: Severity, s: Signals)
    ensures var x := Summary(status, s);
            var hard := status.HardStop? || s.killSwitch == "hard_stop";
            var soft := s.killSwitch == "soft_stop" || s.spread in {"halt", "block"};
            var uneasy := s.spread != "normal" || s.reduceOnly || s.liquidity in {"guarded", "halted"} || !status.Ok?;
            && x.exitCode == (if hard then 63 else if soft then 62 else if uneasy then 21 else 0)
            && x.board == (if hard then Halted else if uneasy then Guarded else NormalMode)
            && x.reduceOnly == (s.reduceOnly || (!hard && uneasy))
            && x.spread == (if s.spread in {"halt", "block"} then "block"
                            else if s.spread in {"watch", "cooldown"} then "cooldown" else s.spread)
  {}

  /** The exit code is zero exactly when every input is clear; liquidity alone already guards the board. */
  lemma AllClear(status: Severity, s: Signals)
    ensures Summary(status, s).exitCode == 0 <==>
            && status.Ok? && s.killSwitch !in {"hard_stop", "soft_stop"} && s.spread == "normal" && !s.reduceOnly
            && s.liquidity !in {"guarded", "halted"}
  {}

  /** Raising any condition never lowers the exit code or the board mode. */
  lemma RaiseNeverRelaxes(h: Health, level: string, code: string, logged: bool, s: Signals)
    ensures var before, after := Summary(h.status, s), Summary(Step(h, Raise(level, code, logged)).status, s);
            before.exitCode <= after.exitCode && BoardRank(before.board) <= BoardRank(after.board)
  {
    hide StatusOf;
  }
}
