/** Processing queued resync jobs: what each leaves in the queue, and how the counters add up. */
module Resync {
  import opened Values

  // Other statuses, such as "queued", are never written here.
  datatype Status = Completed | Failed | ManualCsvRequired | Planned | Other(text: string)

  datatype Job = Job(id: string, symbols: seq<string>, manualCsv: bool)

  // What the backfill of a job does: complete with bars from a provider after some retries, or fail.
  datatype Outcome = Done(retries: nat, provider: string, bars: nat) | Broken

  datatype Result = Result(id: string, status: Status, provider: string, bars: nat)

  datatype Record = Record(id: string, status: Status)

  datatype ManualJob = ManualJob(symbol: string, source: string)

  datatype Report = Report(results: seq<Result>, completed: nat, failed: nat, manualEnqueued: nat, retries: nat,
                           failoverUsed: seq<string>)

  predicate Terminal(status: Status) { status in {Completed, Failed, ManualCsvRequired} }

  function StatusAfter(job: Job, outcome: Outcome): Status {
    if job.manualCsv then ManualCsvRequired else if outcome.Done? then Completed else Failed
  }

  /** The status `load_queue` reports for a job: that of its last record. */
  function LatestStatus(queue: seq<Record>, id: string): Option<Status> {
    if queue == [] then None
    else
      var last := queue[|queue| - 1];
      if last.id == id then Some(last.status) else LatestStatus(queue[..|queue| - 1], id)
  }

  /** The jobs with an id, each with its outcome. */
  function Known(jobs: seq<Job>, outcomes: seq<Outcome>): seq<(Job, Outcome)>
    requires |jobs| == |outcomes|
  {
    if jobs == [] then []
    else
      var n := |jobs| - 1;
      Known(jobs[..n], outcomes[..n]) + if jobs[n].id == "" then [] else [(jobs[n], outcomes[n])]
  }

  function Count(done: seq<(Job, Outcome)>, status: Status): nat {
    if done == [] then 0
    else
      var last := done[|done| - 1];
      Count(done[..|done| - 1], status) + if StatusAfter(last.0, last.1) == status then 1 else 0
  }

  function Retries(done: seq<(Job, Outcome)>): nat {
    if done == [] then 0
    else
      var last := done[|done| - 1];
      Retries(done[..|done| - 1]) + if !last.0.manualCsv && last.1.Done? then last.1.retries else 0
  }

  function Manual(job: Job): seq<ManualJob> {
    seq(|job.symbols|, i requires 0 <= i < |job.symbols| => ManualJob(job.symbols[i], job.id))
  }

  /** The symbols of every failed or manual job, in order. */
  function ManualOf(done: seq<(Job, Outcome)>): seq<ManualJob> {
    if done == [] then []
    else
      var last := done[|done| - 1];
      ManualOf(done[..|done| - 1]) + if StatusAfter(last.0, last.1) == Completed then [] else Manual(last.0)
  }

  function Updates(done: seq<(Job, Outcome)>): seq<Record> {
    seq(|done|, i requires 0 <= i < |done| => Record(done[i].0.id, StatusAfter(done[i].0, done[i].1)))
  }

  function ResultOf(job: Job, outcome: Outcome): Result {
    if StatusAfter(job, outcome) == Completed then Result(job.id, Completed, outcome.provider, outcome.bars)
    else Result(job.id, StatusAfter(job, outcome), "", 0)
  }

  function Results(done: seq<(Job, Outcome)>): seq<Result> {
    seq(|done|, i requires 0 <= i < |done| => ResultOf(done[i].0, done[i].1))
  }

  /** A dry run plans every job and does nothing. */
  function PlannedFor(done: seq<(Job, Outcome)>): seq<Result> {
    seq(|done|, i requires 0 <= i < |done| => Result(done[i].0.id, Planned, "", 0))
  }

  lemma PlannedStep(done: seq<(Job, Outcome)>, job: Job, outcome: Outcome)
    ensures PlannedFor([]) == []
    ensures PlannedFor(done + [(job, outcome)]) == PlannedFor(done) + [Result(job.id, Planned, "", 0)]
  {}

  function AddProvider(used: seq<string>, job: Job, outcome: Outcome): seq<string> {
    if StatusAfter(job, outcome) != Completed || outcome.provider == "" || outcome.provider in used then used
    else used + [outcome.provider]
  }

  /** The providers of the completed jobs, each once, in order of first use. */
  function Providers(done: seq<(Job, Outcome)>): seq<string> {
    if done == [] then []
    else
      var last := done[|done| - 1];
      AddProvider(Providers(done[..|done| - 1]), last.0, last.1)
  }

  class ResyncCoordinator {
    var queue: seq<Record>
    var manualJobs: seq<ManualJob>

    /** The last record of every job id; records without one are skipped. */
    method LoadQueue() returns (latest: map<string, Status>)
      ensures forall id :: id in latest <==> id != "" && LatestStatus(queue, id).Some?
      ensures forall id | id in latest :: Some(latest[id]) == LatestStatus(queue, id)
    {
      latest := map[];
      for i := 0 to |queue|
        invariant forall id :: id in latest <==> id != "" && LatestStatus(queue[..i], id).Some?
        invariant forall id | id in latest :: Some(latest[id]) == LatestStatus(queue[..i], id)
      {
        assert queue[..i + 1][..i] == queue[..i];
        if queue[i].id == "" { continue; }
        latest := latest[queue[i].id := queue[i].status];
      }
      assert queue[..|queue|] == queue;
    }

    method EnqueueManualCsvJobs(job: Job) returns (count: nat)
      modifies this`manualJobs
      ensures manualJobs == old(manualJobs) + Manual(job) && count == |Manual(job)|
    {
      count := 0;
      for i := 0 to |job.symbols|
        invariant count == i && manualJobs == old(manualJobs) + Manual(job)[..i]
      {
        manualJobs := manualJobs + [ManualJob(job.symbols[i], job.id)];
        count := count + 1;
      }
      assert Manual(job)[..|job.symbols|] == Manual(job);
    }

    /** Without a dry run every job with an id appends one terminal record and is counted once. */
    method ProcessJobs(jobs: seq<Job>, outcomes: seq<Outcome>, dryRun: bool) returns (r: Report)
      requires |jobs| == |outcomes|
      modifies this
      ensures dryRun ==> queue == old(queue) && manualJobs == old(manualJobs)
                         && r == Report(PlannedFor(Known(jobs, outcomes)), 0, 0, 0, 0, [])
      ensures !dryRun ==> Tallied(Known(jobs, outcomes), old(queue), old(manualJobs), queue, manualJobs, r)
    {
      hide Tallied, Manual, Known, PlannedFor, LatestStatus;
      NothingTallied(jobs, outcomes, queue, manualJobs);
      r := Report([], 0, 0, 0, 0, []);
      for n := 0 to |jobs|
        invariant dryRun ==> queue == old(queue) && manualJobs == old(manualJobs)
                             && r == Report(PlannedFor(Known(jobs[..n], outcomes[..n])), 0, 0, 0, 0, [])
        invariant !dryRun ==> Tallied(Known(jobs[..n], outcomes[..n]), old(queue), old(manualJobs), queue, manualJobs,
                                      r)
      {
        var job := jobs[n];
        KnownStep(jobs, outcomes, n);
        if job.id == "" { continue; }
        if dryRun {
          PlannedStep(Known(jobs[..n], outcomes[..n]), job, outcomes[n]);
          r := r.(results := r.results + [Result(job.id, Planned, "", 0)]);
          continue;
        }
        TallyStep(Known(jobs[..n], outcomes[..n]), job, outcomes[n], old(queue), old(manualJobs), queue, manualJobs, r);
        if job.manualCsv {
          var enqueued := EnqueueManualCsvJobs(job);
          queue := queue + [Record(job.id, ManualCsvRequired)];
          r := r.(manualEnqueued := r.manualEnqueued + enqueued,
                  results := r.results + [Result(job.id, ManualCsvRequired, "", 0)]);
          continue;
        }
        match outcomes[n]
        case Done(retries, provider, bars) =>
          if provider != "" && provider !in r.failoverUsed { r := r.(failoverUsed := r.failoverUsed + [provider]); }
          queue := queue + [Record(job.id, Completed)];
          r := r.(retries := r.retries + retries, completed := r.completed + 1,
                  results := r.results + [Result(job.id, Completed, provider, bars)]);
        case Broken =>
          var enqueued := EnqueueManualCsvJobs(job);
          queue := queue + [Record(job.id, Failed)];
          r := r.(failed := r.failed + 1, manualEnqueued := r.manualEnqueued + enqueued,
                  results := r.results + [Result(job.id, Failed, "", 0)]);
      }
      assert jobs[..|jobs|] == jobs && outcomes[..|jobs|] == outcomes;
    }
  }

  /** What processing `done` leaves behind: one terminal record a job, the manual jobs, and the counters. */
  ghost predicate Tallied(done: seq<(Job, Outcome)>, queue0: seq<Record>, manual0: seq<ManualJob>,
                          queue: seq<Record>, manualJobs: seq<ManualJob>, r: Report) {
    && queue == queue0 + Updates(done) && r.results == Results(done) && r.failoverUsed == Providers(done)
    && manualJobs == manual0 + ManualOf(done) && r.manualEnqueued == |ManualOf(done)|
    && r.completed == Count(done, Completed) && r.failed == Count(done, Failed) && r.retries == Retries(done)
  }

  lemma NothingTallied(jobs: seq<Job>, outcomes: seq<Outcome>, queue: seq<Record>, manualJobs: seq<ManualJob>)
    requires |jobs| == |outcomes|
    ensures Known(jobs[..0], outcomes[..0]) == []
    ensures Tallied([], queue, manualJobs, queue, manualJobs, Report([], 0, 0, 0, 0, [])) && PlannedFor([]) == []
  {
    assert Updates([]) == [] && Results([]) == [] && ManualOf([]) == [];
  }

  lemma KnownStep(jobs: seq<Job>, outcomes: seq<Outcome>, n: nat)
    requires |jobs| == |outcomes| && n < |jobs|
    ensures Known(jobs[..n + 1], outcomes[..n + 1]) ==
            if jobs[n].id == "" then Known(jobs[..n], outcomes[..n])
              else Known(jobs[..n], outcomes[..n]) + [(jobs[n], outcomes[n])]
  {
    assert jobs[..n + 1][..n] == jobs[..n] && outcomes[..n + 1][..n] == outcomes[..n];
  }

  /** One more processed job: its record, its manual jobs unless it completed, and one counter. */
  lemma TallyStep(done: seq<(Job, Outcome)>, job: Job, outcome: Outcome, queue0: seq<Record>, manual0: seq<ManualJob>,
                  queue: seq<Record>, manualJobs: seq<ManualJob>, r: Report)
    requires Tallied(done, queue0, manual0, queue, manualJobs, r)
    ensures var status := StatusAfter(job, outcome);
            var manual := if status == Completed then [] else Manual(job);
            Tallied(done + [(job, outcome)], queue0, manual0, queue + [Record(job.id, status)],
                    if status == Completed then manualJobs else manualJobs + manual,
                    Report(r.results + [ResultOf(job, outcome)],
                           r.completed + (if status == Completed then 1 else 0),
                           r.failed + (if status == Failed then 1 else 0),
                           r.manualEnqueued + |manual|,
                           r.retries + (if !job.manualCsv && outcome.Done? then outcome.retries else 0),
                           AddProvider(r.failoverUsed, job, outcome)))
  {
    hide Manual, StatusAfter, ResultOf, AddProvider;
    var next := done + [(job, outcome)];
    assert next[..|done|] == done;
    assert Updates(next) == Updates(done) + [Record(job.id, StatusAfter(job, outcome))];
    assert Results(next) == Results(done) + [ResultOf(job, outcome)];
    assert ManualOf(done) + [] == ManualOf(done);
  }

  /** A job's status is that of its last record, and it has none without a record. */
  lemma {:induction false} StatusOfLast(queue: seq<Record>, id: string)
    ensures LatestStatus(queue, id).None? <==> forall r | r in queue :: r.id != id
    ensures forall k | 0 <= k < |queue| && queue[k].id == id && (forall j | k < j < |queue| :: queue[j].id != id) ::
              LatestStatus(queue, id) == Some(queue[k].status)
  {
    if queue == [] {
    } else {
      var n := |queue| - 1;
      StatusOfLast(queue[..n], id);
      assert queue == queue[..n] + [queue[n]];
      if queue[n].id != id {
        forall k | 0 <= k < |queue| && queue[k].id == id && (forall j | k < j < |queue| :: queue[j].id != id)
          ensures LatestStatus(queue, id) == Some(queue[k].status)
        {
          assert queue[..n][k] == queue[k];
        }
      }
    }
  }

  /** The jobs that are processed are those with an id, as often as they stand there. */
  lemma {:induction false} KnownCounts(jobs: seq<Job>, outcomes: seq<Outcome>, d: (Job, Outcome))
    requires |jobs| == |outcomes|
    ensures multiset(Known(jobs, outcomes))[d] == if d.0.id == "" then 0 else multiset(Zipped(jobs, outcomes))[d]
  {
    hide Known, Zipped;
    if jobs == [] {
      NothingKnown();
    } else {
      var n := |jobs| - 1;
      KnownCounts(jobs[..n], outcomes[..n], d);
      KnownStep(jobs, outcomes, n);
      ZippedStep(jobs, outcomes, n);
      assert jobs[..n + 1] == jobs && outcomes[..n + 1] == outcomes;
    }
  }

  lemma NothingKnown()
    ensures Known([], []) == [] && Zipped([], []) == []
  {}

  lemma ZippedStep(jobs: seq<Job>, outcomes: seq<Outcome>, n: nat)
    requires |jobs| == |outcomes| && n < |jobs|
    ensures Zipped(jobs[..n + 1], outcomes[..n + 1]) == Zipped(jobs[..n], outcomes[..n]) + [(jobs[n], outcomes[n])]
  {}

  ghost function Zipped(jobs: seq<Job>, outcomes: seq<Outcome>): seq<(Job, Outcome)>
    requires |jobs| == |outcomes|
  {
    seq(|jobs|, i requires 0 <= i < |jobs| => (jobs[i], outcomes[i]))
  }

  /** And they are in the order of the jobs: when all have one, they are the jobs. */
  lemma {:induction false} AllKnown(jobs: seq<Job>, outcomes: seq<Outcome>)
    requires |jobs| == |outcomes| && forall job | job in jobs :: job.id != ""
    ensures Known(jobs, outcomes) == Zipped(jobs, outcomes)
  {
    if jobs == [] {
    } else {
      var n := |jobs| - 1;
      AllKnown(jobs[..n], outcomes[..n]);
      assert jobs[n] in jobs;
    }
  }

  /** What each processed job leaves: a manual one its symbols to be fetched by hand and that status; else one whose
      backfill came through a completed record, its bars and provider, and nothing by hand; else a failed record and
      its symbols by hand. */
  lemma JobLeaves(done: seq<(Job, Outcome)>, i: nat)
    requires i < |done|
    ensures var (job, outcome) := done[i];
            var (record, result) := (Updates(done)[i], Results(done)[i]);
            && record.id == result.id == job.id && record.status == result.status
            && (job.manualCsv ==> record.status == ManualCsvRequired && (result.provider, result.bars) == ("", 0))
            && (!job.manualCsv && outcome.Done? ==>
                  record.status == Completed && (result.provider, result.bars) == (outcome.provider, outcome.bars))
            && (!job.manualCsv && outcome.Broken? ==>
                  record.status == Failed && (result.provider, result.bars) == ("", 0))
            && |Manual(job)| == |job.symbols|
            && forall k | 0 <= k < |job.symbols| :: Manual(job)[k] == ManualJob(job.symbols[k], job.id)
  {}

  /** By hand go the symbols of exactly the manual and the broken jobs, and the retries are those of the others. */
  lemma {:induction false} ByHandAndRetries(done: seq<(Job, Outcome)>, job: Job, outcome: Outcome)
    ensures var (next, byHand) := (done + [(job, outcome)], job.manualCsv || outcome.Broken?);
            && ManualOf([]) == [] && ManualOf(next) == ManualOf(done) + (if byHand then Manual(job) else [])
            && Retries([]) == 0 && Retries(next) == Retries(done) + (if byHand then 0 else outcome.retries)
            && Count([], Completed) == 0 && Count(next, Completed) == Count(done, Completed) + (if byHand then 0 else 1)
            && Count(next, Failed) == Count(done, Failed) + (if byHand && !job.manualCsv then 1 else 0)
  {
    assert (done + [(job, outcome)])[..|done|] == done;
  }

  /** Completed, failed and manual results are all the jobs with ids. */
  lemma {:induction false} CountsAddUp(done: seq<(Job, Outcome)>)
    ensures Count(done, Completed) + Count(done, Failed) + Count(done, ManualCsvRequired) == |done|
  {
    if done == [] {
    } else {
      CountsAddUp(done[..|done| - 1]);
    }
  }

  /** The report names exactly the providers of the completed jobs, each once. */
  lemma {:induction false} ProvidersNamed(done: seq<(Job, Outcome)>, provider: string)
    ensures forall i, j :: 0 <= i < j < |Providers(done)| ==> Providers(done)[i] != Providers(done)[j]
    ensures provider in Providers(done) <==>
            provider != "" && exists d :: d in done && StatusAfter(d.0, d.1) == Completed && d.1.provider == provider
  {
    hide StatusAfter;
    if done == [] {
    } else {
      var prev, last := done[..|done| - 1], done[|done| - 1];
      ProvidersNamed(prev, provider);
      assert forall d :: d in done <==> d in prev || d == last;
      if StatusAfter(last.0, last.1) == Completed && last.1.Done? { ProvidersNamed(prev, last.1.provider); }
    }
  }

  /** Every processed job ends in a terminal status as `load_queue` sees it. */
  lemma {:induction false} ProcessedIsTerminal(queue: seq<Record>, done: seq<(Job, Outcome)>, k: nat)
    requires k < |done|
    ensures var s := LatestStatus(queue + Updates(done), done[k].0.id); s.Some? && Terminal(s.value)
    decreases |done|
  {
    var n := |done| - 1;
    var all := queue + Updates(done);
    assert all[..|all| - 1] == queue + Updates(done[..n]);
    if done[n].0.id != done[k].0.id { ProcessedIsTerminal(queue, done[..n], k); }
  }
}
