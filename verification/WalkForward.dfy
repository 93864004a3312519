/** Walk-forward planning: test windows that tile the span after the first training window. */
module WalkForward {
  import opened Values
  import opened PyText

  // Dates are day numbers.
  datatype Segment = Segment(index: nat, trainStart: int, trainEnd: int, testEnd: int)

  /** The loop adds a segment at `cursor`: there is room behind the training window, and a test window. */
  predicate Enters(cursor: int, end: int, train: int, test: int) {
    cursor < end && cursor + train < end && MinI(cursor + train + test, end) > cursor + train
  }

  /** The loop ends: it moves forward, or it adds nothing to begin with. */
  predicate Ends(cursor: int, end: int, train: int, test: int, step: int) {
    step > 0 || !Enters(cursor, end, train, test)
  }

  /** The cursor after `n` segments. */
  function Cursor(start: int, step: int, n: nat): int { start + n * step }

  /** That guard is exact: when it fails the loop adds a segment after every number of segments. */
  lemma EndsExactly(start: int, end: int, train: int, test: int, step: int)
    ensures Ends(start, end, train, test, step) <==> exists n: nat :: !Enters(Cursor(start, step, n), end, train, test)
  {
    assert Cursor(start, step, 0) == start;
    if step > 0 {
      var n: nat := MaxI(end - start, 0);
      assert n * step >= n;
      assert !Enters(Cursor(start, step, n), end, train, test);
    } else if Enters(start, end, train, test) {
      forall n: nat ensures Enters(Cursor(start, step, n), end, train, test) {
        assert n * step <= 0;
      }
    }
  }

  /** The plan from `cursor` on. */
  function PlanFrom(cursor: int, end: int, train: int, test: int, step: int, index: nat): seq<Segment>
    requires Ends(cursor, end, train, test, step)
    decreases if step > 0 then MaxI(end - cursor, 0) else 0
  {
    if !Enters(cursor, end, train, test) then []
    else
      [Segment(index, cursor, cursor + train, MinI(cursor + train + test, end))]
      + PlanFrom(cursor + step, end, train, test, step, index + 1)
  }

  lemma PlanUnfolds(cursor: int, end: int, train: int, test: int, step: int, index: nat)
    requires Ends(cursor, end, train, test, step)
    ensures PlanFrom(cursor, end, train, test, step, index) ==
            if !Enters(cursor, end, train, test) then []
            else [Segment(index, cursor, cursor + train, MinI(cursor + train + test, end))]
                 + PlanFrom(cursor + step, end, train, test, step, index + 1)
  {}

  method BuildPlan(start: int, end: int, windowDays: int, stepDays: int, trainDays: Option<int>, testDays: Option<int>)
    returns (segments: seq<Segment>)
    requires Ends(start, end, if trainDays.Some? then trainDays.value else windowDays,
                  if testDays.Some? then testDays.value else stepDays, stepDays)
    ensures segments == PlanFrom(start, end, if trainDays.Some? then trainDays.value else windowDays,
                                 if testDays.Some? then testDays.value else stepDays, stepDays, 1)
  {
    hide PlanFrom;
    segments := [];
    var cursor, index: nat := start, 1;
    var train := if trainDays.Some? then trainDays.value else windowDays;
    var test := if testDays.Some? then testDays.value else stepDays;
    while cursor < end
      invariant Ends(cursor, end, train, test, stepDays)
      invariant segments + PlanFrom(cursor, end, train, test, stepDays, index) ==
                PlanFrom(start, end, train, test, stepDays, 1)
      decreases MaxI(end - cursor, 0)
    {
      PlanUnfolds(cursor, end, train, test, stepDays, index);
      var trainEnd := cursor + train;
      if trainEnd >= end { break; }
      var testEnd := MinI(trainEnd + test, end);
      if testEnd <= trainEnd { break; }
      segments := segments + [Segment(index, cursor, trainEnd, testEnd)];
      index := index + 1;
      cursor := cursor + stepDays;
    }
    PlanUnfolds(cursor, end, train, test, stepDays, index);
  }

  /** Where each segment stands. */
  lemma {:induction false} SegmentAt(start: int, end: int, train: int, test: int, step: int, index: nat, i: nat)
    requires step > 0 && i < |PlanFrom(start, end, train, test, step, index)|
    ensures var s := PlanFrom(start, end, train, test, step, index)[i];
            && s.index == index + i && s.trainStart == Cursor(start, step, i) && s.trainEnd == s.trainStart + train
            && s.testEnd == MinI(s.trainEnd + test, end) > s.trainEnd && s.trainEnd < end
    decreases i
  {
    if i == 0 {
    } else {
      SegmentAt(start + step, end, train, test, step, index + 1, i - 1);
      assert Cursor(start + step, step, i - 1) == Cursor(start, step, i) by {
        assert i * step == (i - 1) * step + step;
      }
    }
  }

  /** Whatever the step: two neighbouring test windows meet exactly when the step is the test window, leave a
      gap exactly when it is longer, and overlap exactly when it is shorter. */
  lemma NeighboursMeetIff(start: int, end: int, train: int, test: int, step: int, i: nat)
    requires step > 0 && i + 1 < |PlanFrom(start, end, train, test, step, 1)|
    ensures var plan := PlanFrom(start, end, train, test, step, 1);
            && (plan[i + 1].trainEnd == plan[i].testEnd <==> step == test)
            && (plan[i + 1].trainEnd > plan[i].testEnd <==> step > test)
  {
    hide PlanFrom;
    SegmentAt(start, end, train, test, step, 1, i);
    SegmentAt(start, end, train, test, step, 1, i + 1);
    assert (i + 1) * step == i * step + step;
  }

  /** Days of a spec such as "90d", "2w" or "6m"; None when it is not one. */
  function ParseWindowSpec(spec: string): Option<nat> {
    var s := Lower(Strip(spec));
    if |s| < 2 || !(forall k | 0 <= k < |s| - 1 :: IsDigit(s[k])) then None
    else
      var value := DigitsValue(s[..|s| - 1]);
      match s[|s| - 1]
      case 'd' => Some(value)
      case 'w' => Some(value * 7)
      case 'm' => Some(value * 30)
      case _ => None
  }

  lemma SpecIs(digits: string, unit: char)
    requires digits != "" && (forall k :: 0 <= k < |digits| ==> IsDigit(digits[k])) && 'a' <= unit <= 'z'
    ensures var s := digits + [unit];
            && Lower(Strip(s)) == s && Lower(Strip(digits + [unit - 'a' + 'A'])) == s && Lower(Strip(" " + s)) == s
  {
    hide LStrip, RStrip, Strip;
    var s, upper := digits + [unit], digits + [unit - 'a' + 'A'];
    assert Trimmed(s) && Trimmed(upper);
    assert Lower(s) == s && Lower(upper) == s;
    Unblanked(s);
  }

  lemma Unblanked(s: string)
    requires s != "" && Trimmed(s)
    ensures Strip(" " + s) == s
  {
    assert (" " + s)[1..] == s;
    assert RStrip(" " + s) == " " + s && LStrip(" " + s) == LStrip(s) == s;
  }

  /** A number of days, weeks or months of thirty days, in either case and with blanks around; no other unit. */
  lemma SpecDays(n: nat, unit: char)
    requires 'a' <= unit <= 'z'
    ensures var (spec, upper) := (Decimal(n) + [unit], Decimal(n) + [unit - 'a' + 'A']);
            var days := if unit == 'd' then Some(n) else if unit == 'w' then Some(7 * n)
                        else if unit == 'm' then Some(30 * n) else None;
            ParseWindowSpec(spec) == ParseWindowSpec(upper) == ParseWindowSpec(" " + spec) == days
  {
    hide Lower, Strip, Decimal, DigitsValue;
    var digits := Decimal(n);
    SpecIs(digits, unit);
    DecimalValue(n);
    assert (digits + [unit])[..|digits|] == digits;
  }

  /** Without digits before the unit, or with anything else among them, it is no spec. */
  lemma NoSpec(spec: string)
    requires var s := Lower(Strip(spec)); |s| < 2 || exists k :: 0 <= k < |s| - 1 && !IsDigit(s[k])
    ensures ParseWindowSpec(spec) == None
  {}

  /** build_plan_from_specs: the step is the test window, so every spec terminates. */
  method BuildPlanFromSpecs(start: int, end: int, windowSpec: string, stepSpec: string)
    returns (plan: Option<seq<Segment>>)
    ensures plan.None? <==> ParseWindowSpec(windowSpec).None? || ParseWindowSpec(stepSpec).None?
    ensures plan.Some? ==> plan.value == SpecPlan(start, end, ParseWindowSpec(windowSpec).value,
                                                  ParseWindowSpec(stepSpec).value)
  {
    var train, test := ParseWindowSpec(windowSpec), ParseWindowSpec(stepSpec);
    if train.None? || test.None? { return None; }
    var segments := BuildPlan(start, end, 30, test.value, Some(train.value), Some(test.value));
    return Some(segments);
  }

  function SpecPlan(start: int, end: int, train: nat, test: nat): seq<Segment> {
    PlanFrom(start, end, train, test, test, 1)
  }

  /** Test windows cover [from, to) without gap or overlap, each behind a full training window. */
  ghost predicate Tiles(plan: seq<Segment>, from: int, to: int, train: nat) {
    && plan != [] && plan[0].trainEnd == from && plan[|plan| - 1].testEnd == to
    && (forall i | 0 <= i < |plan| :: plan[i].trainStart + train == plan[i].trainEnd < plan[i].testEnd)
    && (forall i | 0 < i < |plan| :: plan[i].trainEnd == plan[i - 1].testEnd && plan[i].index == plan[i - 1].index + 1)
  }

  /** `n` is span / size, rounded up. */
  ghost predicate Ceiling(n: int, span: int, size: int) { (n - 1) * size < span <= n * size }

  lemma CeilingStep(n: int, span: int, size: int)
    requires Ceiling(n, span - size, size)
    ensures Ceiling(n + 1, span, size)
  {
    assert (n + 1) * size == n * size + size;
    assert n * size == (n - 1) * size + size;
  }

  lemma CeilingOne(span: int, size: int)
    requires 0 < span <= size
    ensures Ceiling(1, span, size)
  {}

  lemma {:induction false} PlanTiles(cursor: int, end: int, train: nat, test: nat, index: nat)
    requires test > 0 && cursor + train < end
    ensures var plan := PlanFrom(cursor, end, train, test, test, index);
            Tiles(plan, cursor + train, end, train) && plan[0].index == index
    ensures Ceiling(|PlanFrom(cursor, end, train, test, test, index)|, end - cursor - train, test)
    decreases end - cursor
  {
    hide Ceiling;
    var plan := PlanFrom(cursor, end, train, test, test, index);
    var rest := PlanFrom(cursor + test, end, train, test, test, index + 1);
    assert plan == [plan[0]] + rest;
    if cursor + test + train < end {
      PlanTiles(cursor + test, end, train, test, index + 1);
      CeilingStep(|rest|, end - cursor - train, test);
    } else {
      CeilingOne(end - cursor - train, test);
    }
  }

  /** Every spec gives a plan: empty exactly when there is no room or no test window, and otherwise test
      windows that tile [start + train, end), as many as fit rounded up. */
  lemma SpecPlanTiles(start: int, end: int, train: nat, test: nat)
    ensures var plan := SpecPlan(start, end, train, test);
            if test == 0 || start + train >= end then plan == []
            else Tiles(plan, start + train, end, train) && Ceiling(|plan|, end - start - train, test)
  {
    if test > 0 && start + train < end { PlanTiles(start, end, train, test, 1); }
  }
}
