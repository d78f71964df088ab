/** What one job contributes to the store: the writes `updateMetrics` makes for
    it, in the order it makes them. */
module Mapping {
  import opened Snapshot
  import opened Encoders
  import opened Gauges

  /** `commonArgs`: the job name and the last completed build's number. */
  function CommonLabels(r: JobRecord): seq<string>
  {
    [r.name, Itoa(r.completed.number)]
  }

  /** Labels of the running-build and elapsed-time series: name, last build's number, `isgood`. */
  function LiveLabels(r: JobRecord): seq<string>
  {
    [r.name, Itoa(r.last.number), IsGoodLabel(r.last.isGood)]
  }

  /** Duration, timestamp and the three test counts of the last completed build. */
  function CompletedWrites(r: JobRecord): seq<Write>
  {
    var common := CommonLabels(r);
    [ Write(Series(BuildDurationSeconds, common), MillisToSeconds(r.completed.durationMillis)),
      Write(Series(BuildTimestamp, common), r.completed.timestamp),
      Write(Series(BuildTestCount, common + ["fail"]), r.completed.tests.failCount),
      Write(Series(BuildTestCount, common + ["skip"]), r.completed.tests.skipCount),
      Write(Series(BuildTestCount, common + ["pass"]), r.completed.tests.passCount) ]
  }

  /** The running-build gauge. */
  function RunningWrite(r: JobRecord): Write
  {
    Write(Series(RunningBuild, LiveLabels(r)), RunningValue(r.running))
  }

  function StatusWrite(r: JobRecord, st: Stage): Write
  {
    Write(Series(RunningBuildPipelineStatus, [r.name, Itoa(r.last.number), StageIdLabel(st.id), st.name]),
          StageStatusCode(st.status))
  }

  /** `f` applied to each element, in order. */
  function Each<A, B>(f: A -> B, xs: seq<A>): seq<B>
    decreases |xs|
  {
    if xs == [] then [] else Each(f, xs[..|xs| - 1]) + [f(xs[|xs| - 1])]
  }

  /** The i-th element of Each(f, xs) is f(xs[i]). */
  lemma {:induction false} EachAt<A, B>(f: A -> B, xs: seq<A>)
    ensures |Each(f, xs)| == |xs|
    ensures forall i :: 0 <= i < |xs| ==> Each(f, xs)[i] == f(xs[i])
    decreases |xs|
  {
    if xs != [] {
      var init := xs[..|xs| - 1];
      EachAt(f, init);
      forall i | 0 <= i < |xs|
        ensures Each(f, xs)[i] == f(xs[i])
      {
        if i < |init| {
          assert xs[i] == init[i];
        }
      }
    }
  }

  /** Each over one more element of a sequence appends that element's image. */
  lemma EachSnoc<A, B>(f: A -> B, xs: seq<A>, i: nat)
    requires i < |xs|
    ensures Each(f, xs[..i + 1]) == Each(f, xs[..i]) + [f(xs[i])]
  {
    assert xs[..i + 1][..i] == xs[..i];
  }

  /** One status write per stage of the running build's pipeline, in stage order. */
  function StatusWrites(r: JobRecord, stages: seq<Stage>): seq<Write>
  {
    Each((st: Stage) => StatusWrite(r, st), stages)
  }

  /** `elapsedTime`: the sum over stages of each stage's whole seconds. */
  function ElapsedSeconds(stages: seq<Stage>): int
    decreases |stages|
  {
    if stages == [] then 0
    else ElapsedSeconds(stages[..|stages| - 1]) + MillisToSeconds(stages[|stages| - 1].durationMillis)
  }

  function ElapsedWrite(r: JobRecord): Write
  {
    Write(Series(RunningBuildElapsedTime, LiveLabels(r)), ElapsedSeconds(r.last.stages))
  }

  /** The writes made only while a build runs: stage statuses, then the elapsed time. */
  function LiveWrites(r: JobRecord): seq<Write>
  {
    if RunningValue(r.running) == 1 then StatusWrites(r, r.last.stages) + [ElapsedWrite(r)] else []
  }

  function SuccessWrite(r: JobRecord): Write
  {
    Write(Series(BuildSuccess, CommonLabels(r)), BuildSuccessValue(r.completed.result))
  }

  function AgeWrite(r: JobRecord, suiteName: string, c: TestCase): Write
  {
    Write(Series(BuildTestCaseFailureAge, CommonLabels(r) + [suiteName, c.name, c.status, Itoa(c.failedSince)]),
          c.age)
  }

  /** Failure-age writes for the failing cases of one suite, in case order. */
  function CaseWrites(r: JobRecord, suiteName: string, cases: seq<TestCase>): seq<Write>
    decreases |cases|
  {
    if cases == [] then []
    else
      var c := cases[|cases| - 1];
      CaseWrites(r, suiteName, cases[..|cases| - 1]) + (if IsFailing(c) then [AgeWrite(r, suiteName, c)] else [])
  }

  /** Failure-age writes for every suite, in suite order. */
  function SuiteWrites(r: JobRecord, suites: seq<Suite>): seq<Write>
    decreases |suites|
  {
    if suites == [] then []
    else
      var s := suites[|suites| - 1];
      SuiteWrites(r, suites[..|suites| - 1]) + CaseWrites(r, s.name, s.cases)
  }

  function DurationWrite(r: JobRecord, st: Stage): Write
  {
    Write(Series(BuildPipelineDurationSeconds, [r.name, Itoa(r.completed.number), StageIdLabel(st.id), st.name]),
          MillisToSeconds(st.durationMillis))
  }

  /** One duration write per stage of the completed build's pipeline, in stage order. */
  function DurationWrites(r: JobRecord, stages: seq<Stage>): seq<Write>
  {
    Each((st: Stage) => DurationWrite(r, st), stages)
  }

  /** Every write the pass makes for one fetched job, in order. */
  function JobWrites(r: JobRecord): seq<Write>
  {
    CompletedWrites(r) + [RunningWrite(r)] + LiveWrites(r) + [SuccessWrite(r)]
    + SuiteWrites(r, r.completed.tests.suites) + DurationWrites(r, r.completed.stages)
  }

  // ---------------------------------------------------------------------------
  // Properties of the writes of one job

  /** The i-th status write belongs to the i-th stage, and there is one per stage. */
  lemma StatusWritesAt(r: JobRecord, stages: seq<Stage>)
    ensures |StatusWrites(r, stages)| == |stages|
    ensures forall i :: 0 <= i < |stages| ==> StatusWrites(r, stages)[i] == StatusWrite(r, stages[i])
  {
    EachAt((st: Stage) => StatusWrite(r, st), stages);
  }

  /** The i-th duration write belongs to the i-th stage, and there is one per stage. */
  lemma DurationWritesAt(r: JobRecord, stages: seq<Stage>)
    ensures |DurationWrites(r, stages)| == |stages|
    ensures forall i :: 0 <= i < |stages| ==> DurationWrites(r, stages)[i] == DurationWrite(r, stages[i])
  {
    EachAt((st: Stage) => DurationWrite(r, st), stages);
  }

  /** One more case of a suite adds its failure-age write when it is failing, and nothing otherwise. */
  lemma CaseWritesSnoc(r: JobRecord, suiteName: string, cases: seq<TestCase>, i: nat)
    requires i < |cases|
    ensures IsFailing(cases[i]) ==>
              CaseWrites(r, suiteName, cases[..i + 1]) == CaseWrites(r, suiteName, cases[..i]) + [AgeWrite(r, suiteName, cases[i])]
    ensures !IsFailing(cases[i]) ==>
              CaseWrites(r, suiteName, cases[..i + 1]) == CaseWrites(r, suiteName, cases[..i])
  {
    assert cases[..i + 1][..i] == cases[..i];
  }

  /** A suite's cases get a failure-age write exactly when they are failing. */
  lemma {:induction false} CaseWritesMembers(r: JobRecord, suiteName: string, cases: seq<TestCase>, w: Write)
    ensures w in CaseWrites(r, suiteName, cases) <==>
            exists c :: c in cases && IsFailing(c) && w == AgeWrite(r, suiteName, c)
    decreases |cases|
  {
    if cases != [] {
      var init := cases[..|cases| - 1];
      assert cases == init + [cases[|cases| - 1]];
      CaseWritesMembers(r, suiteName, init, w);
    }
  }

  /** The failure-age writes of a build are those of the failing cases of its suites. */
  lemma {:induction false} SuiteWritesMembers(r: JobRecord, suites: seq<Suite>, w: Write)
    ensures w in SuiteWrites(r, suites) <==>
            exists s, c :: s in suites && c in s.cases && IsFailing(c) && w == AgeWrite(r, s.name, c)
    decreases |suites|
  {
    if suites != [] {
      var init, s := suites[..|suites| - 1], suites[|suites| - 1];
      assert suites == init + [s];
      SuiteWritesMembers(r, init, w);
      CaseWritesMembers(r, s.name, s.cases, w);
    }
  }

  /** `elapsedTime` adds up: the elapsed seconds of two runs of stages is the sum of each. */
  lemma {:induction false} ElapsedSecondsConcat(a: seq<Stage>, b: seq<Stage>)
    ensures ElapsedSeconds(a + b) == ElapsedSeconds(a) + ElapsedSeconds(b)
    decreases |b|
  {
    if b == [] {
      assert a + b == a;
    } else {
      assert (a + b)[..|a + b| - 1] == a + b[..|b| - 1];
      ElapsedSecondsConcat(a, b[..|b| - 1]);
    }
  }

  /** With no negative stage durations the elapsed time is at least 0 and at most the total in seconds. */
  lemma {:induction false} ElapsedSecondsBounds(stages: seq<Stage>)
    requires forall i :: 0 <= i < |stages| ==> 0 <= stages[i].durationMillis
    ensures 0 <= ElapsedSeconds(stages) * 1000 <= TotalMillis(stages)
    decreases |stages|
  {
    if stages != [] {
      ElapsedSecondsBounds(stages[..|stages| - 1]);
    }
  }

  function TotalMillis(stages: seq<Stage>): int
    decreases |stages|
  {
    if stages == [] then 0 else TotalMillis(stages[..|stages| - 1]) + stages[|stages| - 1].durationMillis
  }

  /** Where a write of a job comes from, and which families the first two parts write. */
  lemma JobWritesParts(r: JobRecord, w: Write)
    ensures w in JobWrites(r) <==>
            || w in CompletedWrites(r) || w == RunningWrite(r) || w in LiveWrites(r) || w == SuccessWrite(r)
            || w in SuiteWrites(r, r.completed.tests.suites) || w in DurationWrites(r, r.completed.stages)
    ensures w in CompletedWrites(r) ==> w.series.family in {BuildDurationSeconds, BuildTimestamp, BuildTestCount}
    ensures w in LiveWrites(r) <==> r.running && (w in StatusWrites(r, r.last.stages) || w == ElapsedWrite(r))
  {
  }

  /** The family every write of each part of JobWrites carries. */
  lemma PartFamilies(r: JobRecord)
    ensures forall w :: w in StatusWrites(r, r.last.stages) ==> w.series.family == RunningBuildPipelineStatus
    ensures forall w :: w in SuiteWrites(r, r.completed.tests.suites) ==> w.series.family == BuildTestCaseFailureAge
    ensures forall w :: w in DurationWrites(r, r.completed.stages) ==> w.series.family == BuildPipelineDurationSeconds
  {
    StatusWritesAt(r, r.last.stages);
    DurationWritesAt(r, r.completed.stages);
    forall w | w in SuiteWrites(r, r.completed.tests.suites)
      ensures w.series.family == BuildTestCaseFailureAge
    {
      SuiteWritesMembers(r, r.completed.tests.suites, w);
    }
  }

  /** An elapsed-time series is written for a job exactly when it reports a running
      build, and then there is one, holding ElapsedSeconds of the live stages. */
  lemma ElapsedOnlyWhenRunning(r: JobRecord, w: Write)
    requires w in JobWrites(r) && w.series.family == RunningBuildElapsedTime
    ensures r.running && w == ElapsedWrite(r)
    ensures w.value == ElapsedSeconds(r.last.stages)
  {
    JobWritesParts(r, w);
    PartFamilies(r);
  }

  /** The live stage-status series are written only while a build runs: one per stage of
      the last build's pipeline, valued by StageStatusCode. */
  lemma LiveStatusSeries(r: JobRecord, w: Write)
    ensures w in JobWrites(r) && w.series.family == RunningBuildPipelineStatus <==>
            r.running && exists i :: 0 <= i < |r.last.stages| && w == StatusWrite(r, r.last.stages[i])
  {
    JobWritesParts(r, w);
    PartFamilies(r);
    StatusWritesAt(r, r.last.stages);
    if r.running && exists i :: 0 <= i < |r.last.stages| && w == StatusWrite(r, r.last.stages[i]) {
      var i :| 0 <= i < |r.last.stages| && w == StatusWrite(r, r.last.stages[i]);
      assert StatusWrites(r, r.last.stages)[i] == w;
    }
  }

  /** A failure-age series is written exactly for each case of each suite that was not
      skipped and did not pass, and it holds the case's age. */
  lemma FailureAgeSeries(r: JobRecord, w: Write)
    ensures w in JobWrites(r) && w.series.family == BuildTestCaseFailureAge <==>
            exists s, c :: s in r.completed.tests.suites && c in s.cases && IsFailing(c) && w == AgeWrite(r, s.name, c)
  {
    JobWritesParts(r, w);
    PartFamilies(r);
    SuiteWritesMembers(r, r.completed.tests.suites, w);
  }

  /** Each job writes one build-success series, for its last completed build: 0 when
      that build's result is "FAILURE", 1 otherwise. */
  lemma BuildSuccessSeries(r: JobRecord, w: Write)
    ensures w in JobWrites(r) && w.series.family == BuildSuccess <==> w == SuccessWrite(r)
    ensures SuccessWrite(r).series.labels == [r.name, Itoa(r.completed.number)]
    ensures SuccessWrite(r).value == 0 <==> r.completed.result == "FAILURE"
  {
    JobWritesParts(r, w);
    PartFamilies(r);
  }

  /** Each job writes one running-build series, labelled with the last build's number and
      `isgood`, valued 1 exactly when the job reports a running build. */
  lemma RunningBuildSeries(r: JobRecord, w: Write)
    ensures w in JobWrites(r) && w.series.family == RunningBuild <==>
            w == RunningWrite(r)
    ensures LiveLabels(r)[2] == "1" <==> r.last.isGood
  {
    JobWritesParts(r, w);
    PartFamilies(r);
  }

  /** The completed pipeline's stages each get a duration series in whole seconds. */
  lemma StageDurationSeries(r: JobRecord, w: Write)
    ensures w in JobWrites(r) && w.series.family == BuildPipelineDurationSeconds <==>
            exists i :: 0 <= i < |r.completed.stages| && w == DurationWrite(r, r.completed.stages[i])
  {
    JobWritesParts(r, w);
    PartFamilies(r);
    DurationWritesAt(r, r.completed.stages);
    if exists i :: 0 <= i < |r.completed.stages| && w == DurationWrite(r, r.completed.stages[i]) {
      var i :| 0 <= i < |r.completed.stages| && w == DurationWrite(r, r.completed.stages[i]);
      assert DurationWrites(r, r.completed.stages)[i] == w;
    }
  }

  /** A well-formed write carries one label value per label name of its family. */
  predicate Labelled(w: Write)
  {
    |w.series.labels| == Arity(w.series.family)
  }

  lemma CompletedLabelled(r: JobRecord, w: Write)
    requires w in CompletedWrites(r)
    ensures Labelled(w)
  {
  }

  lemma StatusWritesLabelled(r: JobRecord, stages: seq<Stage>, w: Write)
    requires w in StatusWrites(r, stages)
    ensures Labelled(w)
  {
    StatusWritesAt(r, stages);
    var i :| 0 <= i < |stages| && StatusWrites(r, stages)[i] == w;
  }

  lemma DurationWritesLabelled(r: JobRecord, stages: seq<Stage>, w: Write)
    requires w in DurationWrites(r, stages)
    ensures Labelled(w)
  {
    DurationWritesAt(r, stages);
    var i :| 0 <= i < |stages| && DurationWrites(r, stages)[i] == w;
  }

  lemma SuiteWritesLabelled(r: JobRecord, suites: seq<Suite>, w: Write)
    requires w in SuiteWrites(r, suites)
    ensures Labelled(w)
  {
    SuiteWritesMembers(r, suites, w);
  }

  /** Every write of a job has as many label values as its family has label names. */
  lemma JobWritesWellFormed(r: JobRecord, w: Write)
    requires w in JobWrites(r)
    ensures Labelled(w)
  {
    JobWritesParts(r, w);
    if w in CompletedWrites(r) {
      CompletedLabelled(r, w);
    } else if w in StatusWrites(r, r.last.stages) {
      StatusWritesLabelled(r, r.last.stages, w);
    } else if w in SuiteWrites(r, r.completed.tests.suites) {
      SuiteWritesLabelled(r, r.completed.tests.suites, w);
    } else if w in DurationWrites(r, r.completed.stages) {
      DurationWritesLabelled(r, r.completed.stages, w);
    }
  }

  // ---------------------------------------------------------------------------
  // The store one job leaves behind

  /** Only failure-age and stage-duration writes follow the build-success write. */
  lemma SuccessWrittenLast(r: JobRecord)
    ensures var ws := JobWrites(r);
      SuccessWrite(r).series in Apply(map[], ws) && Apply(map[], ws)[SuccessWrite(r).series] == SuccessWrite(r).value
  {
    var init := CompletedWrites(r) + [RunningWrite(r)] + LiveWrites(r);
    var tail := SuiteWrites(r, r.completed.tests.suites) + DurationWrites(r, r.completed.stages);
    assert JobWrites(r) == (init + [SuccessWrite(r)]) + tail;
    PartFamilies(r);
    assert SuccessWrite(r).series !in Written(tail);
    ApplySnoc(map[], init, SuccessWrite(r));
    ApplyConcat(map[], init + [SuccessWrite(r)], tail);
    ApplyUntouched(Apply(map[], init + [SuccessWrite(r)]), tail, SuccessWrite(r).series);
  }


  /** A running build's writes are stage statuses and the elapsed time. */
  lemma LiveFamilies(r: JobRecord)
    ensures forall w :: w in LiveWrites(r) ==>
              w.series.family == RunningBuildPipelineStatus || w.series.family == RunningBuildElapsedTime
  {
    PartFamilies(r);
  }

  /** Only live-build, success, failure-age and stage-duration writes follow the running-build write. */
  lemma RunningWrittenLast(r: JobRecord)
    ensures var ws := JobWrites(r);
      RunningWrite(r).series in Apply(map[], ws) && Apply(map[], ws)[RunningWrite(r).series] == RunningWrite(r).value
  {
    var head := CompletedWrites(r) + [RunningWrite(r)];
    var tail := LiveWrites(r) + [SuccessWrite(r)]
                + SuiteWrites(r, r.completed.tests.suites) + DurationWrites(r, r.completed.stages);
    assert JobWrites(r) == head + tail;
    PartFamilies(r);
    LiveFamilies(r);
    assert RunningWrite(r).series !in Written(tail);
    ApplySnoc(map[], CompletedWrites(r), RunningWrite(r));
    ApplyConcat(map[], head, tail);
    ApplyUntouched(Apply(map[], head), tail, RunningWrite(r).series);
  }


  /** What a pass over one fetched job publishes: the build-success series, 0 exactly
      for a failed build; the running-build series, 1 exactly while a build runs; and an
      elapsed-time series exactly while a build runs. */
  lemma JobStore(r: JobRecord)
    ensures var store := Apply(map[], JobWrites(r));
      && SuccessWrite(r).series in store
      && (store[SuccessWrite(r).series] == 0 <==> r.completed.result == "FAILURE")
      && RunningWrite(r).series in store
      && (store[RunningWrite(r).series] == 1 <==> r.running)
      && ((exists s :: s in store && s.family == RunningBuildElapsedTime) <==> r.running)
  {
    var ws := JobWrites(r);
    SuccessWrittenLast(r);
    RunningWrittenLast(r);
    ApplyKeys(map[], ws);
    if r.running {
      assert ElapsedWrite(r) in ws;
      assert ElapsedWrite(r).series in Written(ws);
    }
    if s :| s in Apply(map[], ws) && s.family == RunningBuildElapsedTime {
      var w :| w in ws && w.series == s;
      ElapsedOnlyWhenRunning(r, w);
    }
  }
}
