/** One polling pass (`updateMetrics`): connect, reset every gauge vector, then
    write the series of each configured job in turn, stopping at the first job
    that cannot be fetched. */
module Exporter {
  import opened Snapshot
  import opened Encoders
  import opened Gauges
  import opened Mapping
  import opened Settings

  /** How a pass ended: the early return it took, if any. */
  datatype Outcome = ConnectFailed | Aborted(job: nat, step: FetchStep) | Completed

  predicate AllFetched(server: Server, names: seq<string>)
  {
    forall i :: 0 <= i < |names| ==> Fetch(server, names[i]).Fetched?
  }

  /** The records of the configured jobs up to, not including, the first one that
      cannot be fetched. */
  function FetchedJobs(server: Server, names: seq<string>): seq<JobRecord>
    decreases |names|
  {
    if names == [] then []
    else
      match Fetch(server, names[0])
      case FetchFailed(_) => []
      case Fetched(r) => [r] + FetchedJobs(server, names[1..])
  }

  /** The writes of the given jobs, job after job. */
  function AllWrites(jobs: seq<JobRecord>): seq<Write>
    decreases |jobs|
  {
    if jobs == [] then [] else AllWrites(jobs[..|jobs| - 1]) + JobWrites(jobs[|jobs| - 1])
  }

  /** The writes of a pass after the reset. */
  function PassWrites(server: Server, names: seq<string>): seq<Write>
  {
    AllWrites(FetchedJobs(server, names))
  }

  /** How the job loop ends: at the first job that cannot be fetched, or after the last job. */
  function JobsOutcome(server: Server, names: seq<string>): (o: Outcome)
    decreases |names|
    ensures o.Completed? || o.Aborted?
    ensures o.Aborted? ==> o.job < |names|
  {
    if names == [] then Completed
    else
      match Fetch(server, names[0])
      case FetchFailed(step) => Aborted(0, step)
      case Fetched(_) =>
        match JobsOutcome(server, names[1..])
        case Aborted(k, step) => Aborted(k + 1, step)
        case other => other
  }

  function PassOutcome(server: Server, names: seq<string>): Outcome
  {
    if !server.reachable then ConnectFailed else JobsOutcome(server, names)
  }

  // ---------------------------------------------------------------------------
  // The pass, job by job

  /** The fetched jobs are a prefix of the configured ones, each the record its name fetches. */
  lemma {:induction false} FetchedJobsAt(server: Server, names: seq<string>)
    ensures |FetchedJobs(server, names)| <= |names|
    ensures forall i :: 0 <= i < |FetchedJobs(server, names)| ==>
              Fetch(server, names[i]) == Fetched(FetchedJobs(server, names)[i])
    decreases |names|
  {
    if names != [] && Fetch(server, names[0]).Fetched? {
      FetchedJobsAt(server, names[1..]);
      var rest := FetchedJobs(server, names[1..]);
      forall i | 0 <= i < |FetchedJobs(server, names)|
        ensures Fetch(server, names[i]) == Fetched(FetchedJobs(server, names)[i])
      {
        if 0 < i {
          assert FetchedJobs(server, names)[i] == rest[i - 1];
          assert names[i] == names[1..][i - 1];
        }
      }
    }
  }

  /** One more fetched job after a run of fetched jobs adds exactly that job. */
  lemma {:induction false} FetchedJobsSnoc(server: Server, names: seq<string>, name: string, r: JobRecord)
    requires AllFetched(server, names)
    requires Fetch(server, name) == Fetched(r)
    ensures FetchedJobs(server, names + [name]) == FetchedJobs(server, names) + [r]
    ensures AllFetched(server, names + [name])
    decreases |names|
  {
    if names == [] {
      assert ([] + [name])[1..] == [];
    } else {
      assert (names + [name])[1..] == names[1..] + [name];
      assert Fetch(server, names[0]).Fetched?;
      FetchedJobsSnoc(server, names[1..], name, r);
    }
  }

  /** The first job that cannot be fetched ends the pass: no job from it on is fetched. */
  lemma {:induction false} FetchedJobsStop(server: Server, names: seq<string>, k: nat)
    requires k < |names|
    requires AllFetched(server, names[..k])
    requires Fetch(server, names[k]).FetchFailed?
    ensures FetchedJobs(server, names) == FetchedJobs(server, names[..k])
    ensures JobsOutcome(server, names) == Aborted(k, Fetch(server, names[k]).step)
    decreases k
  {
    if k > 0 {
      assert Fetch(server, names[..k][0]).Fetched?;
      assert names[..k][1..] == names[1..][..k - 1];
      FetchedJobsStop(server, names[1..], k - 1);
    }
  }

  /** A pass over jobs that all fetch completes. */
  lemma {:induction false} AllFetchedCompletes(server: Server, names: seq<string>)
    requires AllFetched(server, names)
    ensures JobsOutcome(server, names) == Completed
    decreases |names|
  {
    if names != [] {
      assert Fetch(server, names[0]).Fetched?;
      AllFetchedCompletes(server, names[1..]);
    }
  }

  /** A pass that is not aborted fetched every configured job. */
  lemma {:induction false} CompletedFetchedAll(server: Server, names: seq<string>)
    requires JobsOutcome(server, names) == Completed
    ensures AllFetched(server, names)
    ensures |FetchedJobs(server, names)| == |names|
    decreases |names|
  {
    if names != [] {
      CompletedFetchedAll(server, names[1..]);
      forall i | 0 <= i < |names|
        ensures Fetch(server, names[i]).Fetched?
      {
        if 0 < i {
          assert names[i] == names[1..][i - 1];
        }
      }
    }
  }

  /** An aborted pass names the first job that failed and the call that failed; every
      job before it was fetched, and only those jobs are written. */
  lemma {:induction false} AbortedPass(server: Server, names: seq<string>, k: nat, step: FetchStep)
    requires JobsOutcome(server, names) == Aborted(k, step)
    ensures k < |names| && Fetch(server, names[k]) == FetchFailed(step)
    ensures AllFetched(server, names[..k])
    ensures FetchedJobs(server, names) == FetchedJobs(server, names[..k])
    ensures |FetchedJobs(server, names)| == k
    decreases |names|
  {
    match Fetch(server, names[0])
    case FetchFailed(_) =>
    case Fetched(_) =>
      AbortedPass(server, names[1..], k - 1, step);
      assert names[..k] == [names[0]] + names[1..][..k - 1];
      assert names[..k][1..] == names[1..][..k - 1];
  }

  /** Whatever follows the first failing job does not change the pass. */
  lemma LaterJobsIgnored(server: Server, names: seq<string>, k: nat, rest: seq<string>)
    requires k < |names|
    requires AllFetched(server, names[..k])
    requires Fetch(server, names[k]).FetchFailed?
    ensures PassWrites(server, names[..k + 1] + rest) == PassWrites(server, names)
    ensures JobsOutcome(server, names[..k + 1] + rest) == JobsOutcome(server, names)
  {
    var other := names[..k + 1] + rest;
    assert other[..k] == names[..k] && other[k] == names[k];
    FetchedJobsStop(server, other, k);
    FetchedJobsStop(server, names, k);
  }

  /** Every write of a run of jobs is a write of one of them. */
  lemma {:induction false} AllWritesFrom(jobs: seq<JobRecord>, w: Write)
    requires w in AllWrites(jobs)
    ensures exists i :: 0 <= i < |jobs| && w in JobWrites(jobs[i])
    decreases |jobs|
  {
    var init := jobs[..|jobs| - 1];
    if w !in JobWrites(jobs[|jobs| - 1]) {
      AllWritesFrom(init, w);
      var i :| 0 <= i < |init| && w in JobWrites(init[i]);
      assert init[i] == jobs[i];
    }
  }
  /** Conversely, every write of a processed job is among the writes of the pass. */
  lemma {:induction false} AllWritesContains(jobs: seq<JobRecord>, i: nat, w: Write)
    requires i < |jobs| && w in JobWrites(jobs[i])
    ensures w in AllWrites(jobs)
    decreases |jobs|
  {
    if i < |jobs| - 1 {
      var init := jobs[..|jobs| - 1];
      assert init[i] == jobs[i];
      AllWritesContains(init, i, w);
    }
  }


  /** After a pass that connected, the store holds exactly the series the pass wrote, each
      of them a series of a configured job that was fetched: nothing from before the pass
      survives, and no job that is no longer configured has a series. */
  lemma PassStore(server: Server, names: seq<string>, s: Series)
    ensures Apply(map[], PassWrites(server, names)).Keys == Written(PassWrites(server, names))
    ensures s in Apply(map[], PassWrites(server, names)) ==>
            exists i :: 0 <= i < |names| && Fetch(server, names[i]).Fetched?
                        && s in Written(JobWrites(Fetch(server, names[i]).job))
  {
    ApplyKeys(map[], PassWrites(server, names));
    if s in Written(PassWrites(server, names)) {
      PassSeriesOrigin(server, names, s);
    }
  }

  /** Every series of a job processed before the pass ended is present afterwards. */
  lemma PassKeepsFetched(server: Server, names: seq<string>, i: nat, s: Series)
    requires i < |FetchedJobs(server, names)|
    requires s in Written(JobWrites(FetchedJobs(server, names)[i]))
    ensures s in Apply(map[], PassWrites(server, names))
  {
    var jobs := FetchedJobs(server, names);
    var w :| w in JobWrites(jobs[i]) && w.series == s;
    AllWritesContains(jobs, i, w);
    ApplyKeys(map[], PassWrites(server, names));
  }

  /** A series written by the pass comes from a configured job that was fetched. */
  lemma PassSeriesOrigin(server: Server, names: seq<string>, s: Series)
    requires s in Written(PassWrites(server, names))
    ensures exists i :: 0 <= i < |names| && Fetch(server, names[i]).Fetched?
                        && s in Written(JobWrites(Fetch(server, names[i]).job))
  {
    var jobs := FetchedJobs(server, names);
    var w :| w in AllWrites(jobs) && w.series == s;
    AllWritesFrom(jobs, w);
    var i :| 0 <= i < |jobs| && w in JobWrites(jobs[i]);
    FetchedJobsAt(server, names);
    assert Fetch(server, names[i]) == Fetched(jobs[i]);
  }


  /** A pass over one job that fetches writes that job's series and nothing else. */
  lemma SingleJobPass(server: Server, name: string, r: JobRecord)
    requires Fetch(server, name) == Fetched(r)
    ensures PassWrites(server, [name]) == JobWrites(r)
    ensures JobsOutcome(server, [name]) == Completed
  {
    assert FetchedJobs(server, [name]) == [r] + FetchedJobs(server, []);
    assert [r][..0] == [];
    assert AllWrites([r]) == AllWrites([]) + JobWrites(r);
    assert [] + JobWrites(r) == JobWrites(r);
  }

  // ---------------------------------------------------------------------------
  // The imperative pass

  /** Build duration, timestamp and test counts of the last completed build. */
  method RecordCompletedBuild(g: GaugeVecs, r: JobRecord, common: seq<string>)
    requires g.Valid()
    requires common == CommonLabels(r)
    modifies g
    ensures g.Valid()
    ensures g.series == Apply(old(g.series), CompletedWrites(r))
  {
    ghost var start := g.series;
    g.Set(BuildDurationSeconds, common, MillisToSeconds(r.completed.durationMillis));
    g.Set(BuildTimestamp, common, r.completed.timestamp);
    var tests := r.completed.tests;
    g.Set(BuildTestCount, common + ["fail"], tests.failCount);
    g.Set(BuildTestCount, common + ["skip"], tests.skipCount);
    g.Set(BuildTestCount, common + ["pass"], tests.passCount);
    ApplyFive(start, CompletedWrites(r));
  }

  /** While a build runs: the status of each stage of its pipeline, then the elapsed
      time summed over those stages. */
  method RecordRunningBuild(g: GaugeVecs, r: JobRecord, lastId: string, isGood: string)
    requires g.Valid()
    requires lastId == Itoa(r.last.number) && isGood == IsGoodLabel(r.last.isGood)
    requires r.running
    modifies g
    ensures g.Valid()
    ensures g.series == Apply(old(g.series), LiveWrites(r))
  {
    ghost var start := g.series;
    var elapsedTime := 0;
    var stages := r.last.stages;
    for i := 0 to |stages|
      invariant g.Valid()
      invariant g.series == Apply(start, StatusWrites(r, stages[..i]))
      invariant elapsedTime == ElapsedSeconds(stages[..i])
    {
      var stage := stages[i];
      assert stages[..i + 1][..i] == stages[..i];
      elapsedTime := elapsedTime + MillisToSeconds(stage.durationMillis);
      g.Set(RunningBuildPipelineStatus, [r.name, lastId, StageIdLabel(stage.id), stage.name],
            StageStatusCode(stage.status));
      EachSnoc((st: Stage) => StatusWrite(r, st), stages, i);
      ApplySnoc(start, StatusWrites(r, stages[..i]), StatusWrite(r, stage));
    }
    assert stages[..|stages|] == stages;
    g.Set(RunningBuildElapsedTime, [r.name, lastId, isGood], elapsedTime);
    ApplySnoc(start, StatusWrites(r, stages), ElapsedWrite(r));
  }

  /** The failure age of every test case of one suite that ran and did not pass. */
  method RecordSuiteCases(g: GaugeVecs, r: JobRecord, common: seq<string>, suite: Suite)
    requires g.Valid()
    requires common == CommonLabels(r)
    modifies g
    ensures g.Valid()
    ensures g.series == Apply(old(g.series), CaseWrites(r, suite.name, suite.cases))
  {
    ghost var start := g.series;
    for ci := 0 to |suite.cases|
      invariant g.Valid()
      invariant g.series == Apply(start, CaseWrites(r, suite.name, suite.cases[..ci]))
    {
      var testcase := suite.cases[ci];
      CaseWritesSnoc(r, suite.name, suite.cases, ci);
      if IsFailing(testcase) {
        g.Set(BuildTestCaseFailureAge,
              common + [suite.name, testcase.name, testcase.status, Itoa(testcase.failedSince)],
              testcase.age);
        ApplySnoc(start, CaseWrites(r, suite.name, suite.cases[..ci]), AgeWrite(r, suite.name, testcase));
      }
    }
    assert suite.cases[..|suite.cases|] == suite.cases;
  }

  /** The failure age of every test case that ran and did not pass, suite by suite. */
  method RecordFailingCases(g: GaugeVecs, r: JobRecord, common: seq<string>)
    requires g.Valid()
    requires common == CommonLabels(r)
    modifies g
    ensures g.Valid()
    ensures g.series == Apply(old(g.series), SuiteWrites(r, r.completed.tests.suites))
  {
    ghost var start := g.series;
    var suites := r.completed.tests.suites;
    for si := 0 to |suites|
      invariant g.Valid()
      invariant g.series == Apply(start, SuiteWrites(r, suites[..si]))
    {
      var suite := suites[si];
      RecordSuiteCases(g, r, common, suite);
      assert suites[..si + 1][..si] == suites[..si];
      ApplyConcat(start, SuiteWrites(r, suites[..si]), CaseWrites(r, suite.name, suite.cases));
    }
    assert suites[..|suites|] == suites;
  }

  /** The duration of each stage of the last completed build's pipeline. */
  method RecordStageDurations(g: GaugeVecs, r: JobRecord, completedId: string)
    requires g.Valid()
    requires completedId == Itoa(r.completed.number)
    modifies g
    ensures g.Valid()
    ensures g.series == Apply(old(g.series), DurationWrites(r, r.completed.stages))
  {
    ghost var start := g.series;
    var stages := r.completed.stages;
    for i := 0 to |stages|
      invariant g.Valid()
      invariant g.series == Apply(start, DurationWrites(r, stages[..i]))
    {
      var stage := stages[i];
      g.Set(BuildPipelineDurationSeconds, [r.name, completedId, StageIdLabel(stage.id), stage.name],
            MillisToSeconds(stage.durationMillis));
      EachSnoc((st: Stage) => DurationWrite(r, st), stages, i);
      ApplySnoc(start, DurationWrites(r, stages[..i]), DurationWrite(r, stage));
    }
    assert stages[..|stages|] == stages;
  }

  /** The body of the job loop: writes one fetched job's series, in the order `updateMetrics` makes them. */
  method RecordJob(g: GaugeVecs, r: JobRecord)
    requires g.Valid()
    modifies g
    ensures g.Valid()
    ensures g.series == Apply(old(g.series), JobWrites(r))
  {
    ghost var start := g.series;
    var common := [r.name, Itoa(r.completed.number)];
    RecordCompletedBuild(g, r, common);
    ghost var m1 := g.series;

    var isRunning := RunningValue(r.running);
    var isGood := IsGoodLabel(r.last.isGood);
    var lastId := Itoa(r.last.number);
    g.Set(RunningBuild, [r.name, lastId, isGood], isRunning);
    ApplySnoc(m1, [], RunningWrite(r));

    if isRunning == 1 {
      RecordRunningBuild(g, r, lastId, isGood);
    }
    ghost var m3 := g.series;

    g.Set(BuildSuccess, common, BuildSuccessValue(r.completed.result));
    ApplySnoc(m3, [], SuccessWrite(r));

    RecordFailingCases(g, r, common);
    RecordStageDurations(g, r, Itoa(r.completed.number));

    ghost var a, b, c, d := CompletedWrites(r), [RunningWrite(r)], LiveWrites(r), [SuccessWrite(r)];
    ApplyConcat(start, a, b);
    ApplyConcat(start, a + b, c);
    ApplyConcat(start, a + b + c, d);
    ApplyConcat(start, a + b + c + d, SuiteWrites(r, r.completed.tests.suites));
    ApplyConcat(start, a + b + c + d + SuiteWrites(r, r.completed.tests.suites), DurationWrites(r, r.completed.stages));
  }

  /** One step of the job loop: recording the next fetched job extends the pass. */
  lemma NextJob(server: Server, jobs: seq<string>, j: nat, done: seq<JobRecord>, r: JobRecord)
    requires j < |jobs|
    requires AllFetched(server, jobs[..j]) && done == FetchedJobs(server, jobs[..j])
    requires Fetch(server, jobs[j]) == Fetched(r)
    ensures AllFetched(server, jobs[..j + 1]) && done + [r] == FetchedJobs(server, jobs[..j + 1])
    ensures Apply(Apply(map[], AllWrites(done)), JobWrites(r)) == Apply(map[], AllWrites(done + [r]))
  {
    assert jobs[..j + 1] == jobs[..j] + [jobs[j]];
    FetchedJobsSnoc(server, jobs[..j], jobs[j], r);
    ApplyConcat(map[], AllWrites(done), JobWrites(r));
    assert (done + [r])[..|done|] == done;
  }

  /** The job loop of `updateMetrics`: records each configured job in turn and returns
      at the first one that cannot be fetched. */
  method RecordJobs(g: GaugeVecs, server: Server, jobs: seq<string>) returns (outcome: Outcome)
    requires g.Valid() && g.series == map[]
    modifies g
    ensures g.Valid()
    ensures outcome == JobsOutcome(server, jobs)
    ensures g.series == Apply(map[], PassWrites(server, jobs))
  {
    ghost var done: seq<JobRecord> := [];
    for j := 0 to |jobs|
      invariant g.Valid()
      invariant AllFetched(server, jobs[..j])
      invariant done == FetchedJobs(server, jobs[..j])
      invariant g.series == Apply(map[], AllWrites(done))
    {
      var fetched := Fetch(server, jobs[j]);
      match fetched
      case FetchFailed(step) =>
        FetchedJobsStop(server, jobs, j);
        return Aborted(j, step);
      case Fetched(r) =>
        RecordJob(g, r);
        NextJob(server, jobs, j, done, r);
        done := done + [r];
    }
    assert jobs[..|jobs|] == jobs;
    AllFetchedCompletes(server, jobs);
    outcome := Completed;
  }

  /** `updateMetrics`: one polling pass over the configured jobs. */
  method UpdateMetrics(g: GaugeVecs, config: JenkinsSettings, server: Server) returns (outcome: Outcome)
    requires g.Valid()
    modifies g
    ensures g.Valid()
    ensures outcome == PassOutcome(server, config.jobs)
    ensures outcome == ConnectFailed ==> g.series == old(g.series)
    ensures outcome != ConnectFailed ==> g.series == Apply(map[], PassWrites(server, config.jobs))
  {
    if !server.reachable {
      return ConnectFailed;
    }

    g.Reset(RunningBuild);
    g.Reset(RunningBuildElapsedTime);
    g.Reset(RunningBuildPipelineStatus);
    g.Reset(BuildSuccess);
    g.Reset(BuildDurationSeconds);
    g.Reset(BuildTestCount);
    g.Reset(BuildPipelineDurationSeconds);
    g.Reset(BuildTestCaseFailureAge);
    g.Reset(BuildTimestamp);
    ResetAllEmpties(old(g.series));

    outcome := RecordJobs(g, server, config.jobs);
  }
}
