/** Splitting a backfill interval into queued segments. */
module Backfill {
  import opened Values

  // Instants are microseconds.
  const MINUTE := 60_000_000

  datatype Segment = Segment(start: int, end: int)

  /** int(duration.total_seconds() // 60). */
  function Minutes(from: int, to: int): int { (to - from) / MINUTE }

  function SegmentsFrom(cursor: int, end: int, length: nat): seq<Segment>
    requires length > 0
    decreases end - cursor
  {
    if cursor >= end then []
    else
      var next := MinI(end, cursor + length * MINUTE);
      [Segment(cursor, next)] + SegmentsFrom(next, end, length)
  }

  function SegmentMinutes(total: int, manualCsv: bool, retries: int): int {
    if manualCsv && retries >= 3 && total >= 24 * 60 then 4 * 60 else total
  }

  /** The segments of the jobs queued for a resync. */
  method EnqueueSegments(start: Option<int>, end: int, symbols: nat, manualCsv: bool, retries: int)
      returns (segments: seq<Segment>)
    ensures if symbols == 0 || start.None? || Minutes(start.value, end) <= 0 then segments == []
            else
              var total := Minutes(start.value, end);
              segments == SegmentsFrom(start.value, end,
                                       if manualCsv && retries >= 3 && total >= 1440 then 240 else total)
  {
    hide Minutes, SegmentsFrom;
    segments := [];
    if symbols == 0 || start.None? { return; }
    var totalMinutes := Minutes(start.value, end);
    if totalMinutes <= 0 { return; }
    var split := manualCsv && retries >= 3 && totalMinutes >= 24 * 60;
    var length: nat := if split then 4 * 60 else totalMinutes;
    var cursor := start.value;
    while cursor < end
      invariant segments + SegmentsFrom(cursor, end, length) == SegmentsFrom(start.value, end, length)
      decreases end - cursor
    {
      NextSegment(cursor, end, length);
      var segmentEnd := MinI(end, cursor + length * MINUTE);
      if segmentEnd <= cursor { assert false; }
      segments := segments + [Segment(cursor, segmentEnd)];
      cursor := segmentEnd;
    }
    NoSegment(cursor, end, length);
  }

  lemma NextSegment(cursor: int, end: int, length: nat)
    requires length > 0 && cursor < end
    ensures var next := MinI(end, cursor + length * MINUTE);
            && cursor < next <= end
            && SegmentsFrom(cursor, end, length) == [Segment(cursor, next)] + SegmentsFrom(next, end, length)
  {}

  lemma NoSegment(cursor: int, end: int, length: nat)
    requires length > 0 && cursor >= end
    ensures SegmentsFrom(cursor, end, length) == []
  {}

  /** Non-empty, contiguous, exactly [start, end), none longer than `length` minutes. */
  ghost predicate Tiles(segments: seq<Segment>, start: int, end: int, length: nat) {
    && segments != [] && segments[0].start == start && segments[|segments| - 1].end == end
    && (forall i | 0 <= i < |segments| :: segments[i].start < segments[i].end <= segments[i].start + length * MINUTE)
    && (forall i | 0 < i < |segments| :: segments[i].start == segments[i - 1].end)
  }

  function SumMinutes(segments: seq<Segment>): int {
    if segments == [] then 0 else Minutes(segments[0].start, segments[0].end) + SumMinutes(segments[1..])
  }

  lemma WholeMinutes(length: nat, rest: int)
    ensures (length * MINUTE + rest) / MINUTE == length + rest / MINUTE
  {}

  /** The segments tile the interval, and their floored minutes add up to the floored total. */
  lemma {:induction false} SegmentsTile(start: int, end: int, length: nat)
    requires length > 0 && start < end
    ensures Tiles(SegmentsFrom(start, end, length), start, end, length)
    ensures SumMinutes(SegmentsFrom(start, end, length)) == Minutes(start, end)
    decreases end - start
  {
    hide SegmentsFrom, Minutes;
    var next := MinI(end, start + length * MINUTE);
    var rest := SegmentsFrom(next, end, length);
    NextSegment(start, end, length);
    assert ([Segment(start, next)] + rest)[1..] == rest;
    if next < end {
      SegmentsTile(next, end, length);
      MinutesSplit(start, end, length);
    } else {
      NoSegment(next, end, length);
    }
  }

  lemma MinutesSplit(start: int, end: int, length: nat)
    ensures Minutes(start, end) == Minutes(start, start + length * MINUTE) + Minutes(start + length * MINUTE, end)
  {
    WholeMinutes(length, end - (start + length * MINUTE));
    WholeMinutes(length, 0);
  }

  /* ---- the queued jobs ---- */

  datatype Job = Job(index: nat, total: nat, start: int, end: int, rangeMinutes: int)

  method JobsOf(segments: seq<Segment>) returns (jobs: seq<Job>)
    ensures |jobs| == |segments|
    ensures forall i | 0 <= i < |jobs| ::
              jobs[i] == Job(i + 1, |segments|, segments[i].start, segments[i].end,
                             Minutes(segments[i].start, segments[i].end))
  {
    jobs := [];
    for i := 0 to |segments|
      invariant |jobs| == i
      invariant forall k | 0 <= k < i ::
                  jobs[k] == Job(k + 1, |segments|, segments[k].start, segments[k].end,
                                 Minutes(segments[k].start, segments[k].end))
    {
      var seg := segments[i];
      jobs := jobs + [Job(i + 1, |segments|, seg.start, seg.end, Minutes(seg.start, seg.end))];
    }
  }

  function SumRange(jobs: seq<Job>): int {
    if jobs == [] then 0 else jobs[0].rangeMinutes + SumRange(jobs[1..])
  }

  /** Jobs numbered from one cover the interval, and their minutes are the total that decided the split. */
  method EnqueueJobs(start: int, end: int, symbols: nat, manualCsv: bool, retries: int) returns (jobs: seq<Job>)
    ensures jobs == [] <==> symbols == 0 || Minutes(start, end) <= 0
    ensures forall i | 0 <= i < |jobs| :: jobs[i].index == i + 1 && jobs[i].total == |jobs|
    ensures forall i | 0 < i < |jobs| :: jobs[i].start == jobs[i - 1].end
    ensures jobs != [] ==>
            jobs[0].start == start && jobs[|jobs| - 1].end == end && SumRange(jobs) == Minutes(start, end)
  {
    var segments := EnqueueSegments(Some(start), end, symbols, manualCsv, retries);
    jobs := JobsOf(segments);
    if symbols > 0 && Minutes(start, end) > 0 {
      SegmentsTile(start, end, SegmentMinutes(Minutes(start, end), manualCsv, retries));
      RangesAddUp(segments, jobs);
    }
  }

  lemma {:induction false} RangesAddUp(segments: seq<Segment>, jobs: seq<Job>)
    requires |jobs| == |segments|
    requires forall i | 0 <= i < |jobs| :: jobs[i].rangeMinutes == Minutes(segments[i].start, segments[i].end)
    ensures SumRange(jobs) == SumMinutes(segments)
  {
    hide Minutes;
    if jobs == [] {
    } else {
      RangesAddUp(segments[1..], jobs[1..]);
    }
  }
}
