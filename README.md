# Jenkins metrics exporter — verified model of one collection pass

The exporter polls a Jenkins server and republishes, as Prometheus gauges, what it
finds about a configured list of jobs: whether a build is running, the status of the
running pipeline's stages and its elapsed time, whether the last completed build
failed, its duration, timestamp and test counts, the age of every failing test case,
and the duration of each stage of the last completed pipeline.

This project models the heart of that program, `updateMetrics`, together with the
default applied to the update interval. It has six modules:

- `Snapshot`: what the Jenkins API answers during one pass, as plain values. A job
  record holds its name, whether it reports a running build, its last completed build
  (number, duration, timestamp, result, test result set, pipeline stages) and its last
  build (number, "is good" flag, live pipeline stages). A server may be unreachable.
  Each of the three per-job fetches (`GetJob`, `GetLastCompletedBuild`, `GetLastBuild`)
  may fail.
- `Encoders`: the small conversions the pass applies. These are the running flag, the
  `isgood` label, the stage-status code, the build-success value, the failing-case
  filter, Go's truncating millisecond-to-second division, `strconv.Itoa`, and the
  zero-padded stage id.
- `Gauges`: the nine gauge families with their names and label lists, and a store
  from (family, label values) to value. `GaugeVecs` is the class holding that store,
  with `Reset` and `Set` (`WithLabelValues(...).Set`). `Apply` is the reference
  meaning of a sequence of writes.
- `Mapping`: `JobWrites`, the ordered list of gauge writes one fetched job produces,
  and the properties of those writes, family by family.
- `Exporter`: the method `UpdateMetrics` and its parts (reset, job loop, per-build
  phases). It is proved to leave exactly the store that `Apply` gives for the
  writes of the jobs fetched before the first failure. The lemmas describe that store.
- `Settings`: the configuration record and the 1800-second default for an unset
  update interval.

Gauge values are `float64` in the program. Every value written in this pass except the
build duration is a whole number, so the model stores `int`. How the model treats the
build duration is described under `Exporter.RecordCompletedBuild` in "## Left out".

The help text of `jenkins_running_build_pipeline_status` says "0 if pipeline stage has
failed, 1 if succeeded". The code writes 0 for `SUCCESS`, 1 for `IN_PROGRESS`, 2 for
`UNSTABLE`, 3 for `FAILED` and -1 otherwise (`jenkins-metrics.go:212-224`). The model
follows the code.

A failed fetch ends the whole pass, not only the current job: the code `return`s from
`updateMetrics` (`jenkins-metrics.go:146-162`). Jobs after the failing one keep no
series, because everything was reset first. The model follows the code, and
`Exporter.AbortedPass` and `Exporter.LaterJobsIgnored` state this.

## Model

The definitions that spell out what the pass writes have no rows of their own. These are
`Mapping.JobWrites`, `Mapping.ElapsedSeconds`, `Encoders.IsFailing`, `Encoders.Itoa`,
`Encoders.StageIdLabel`, `Exporter.FetchedJobs` and `Exporter.PassWrites`. The rows of the
lemmas about them stand for them.

| member | source | states |
|---|---|---|
| Encoders.RunningValue | jenkins-metrics.go:181-186 | the running flag is 0 or 1, and 1 exactly when the job reports a running build |
| Encoders.IsGoodLabel | jenkins-metrics.go:189-194 | the `isgood` label is "1" or "0", and "1" exactly when the last build is good |
| Encoders.StageStatusCode | jenkins-metrics.go:212-224 | the code is -1 exactly for a status outside SUCCESS, IN_PROGRESS, UNSTABLE, FAILED; otherwise it is that status's position in the list |
| Encoders.BuildSuccessValue | jenkins-metrics.go:236-241 | the value is 0 or 1, and 0 exactly when the result is "FAILURE" |
| Encoders.MillisToSeconds | jenkins-metrics.go:266 | Go's `/ 1000` on milliseconds: whole seconds, truncated toward zero for both signs |
| Encoders.NatToStringShape | jenkins-metrics.go:167 | the decimal form of a natural number is digits only, with no leading zero, and has more than one digit exactly from 10 on |
| Encoders.ItoaSign | jenkins-metrics.go:197 | `strconv.Itoa` output is non-empty and starts with '-' exactly for negative numbers |
| Encoders.ItoaInjective | jenkins-metrics.go:167 | distinct build numbers give distinct labels, so two builds never share a series |
| Encoders.StageIdLabelShape | jenkins-metrics.go:210 | `%03s` of a stage id is at least three characters, ends with the id, and is pad characters before it |
| Gauges.GaugeVecs.constructor | jenkins-metrics.go:23-66 | a new set of gauge vectors holds no series |
| Gauges.GaugeVecs.Reset | jenkins-metrics.go:127 | `Reset` drops exactly the series of one family and keeps every other series with its value |
| Gauges.GaugeVecs.Set | jenkins-metrics.go:171 | `WithLabelValues(...).Set` creates or overwrites exactly one series; the label count must match the family |
| Gauges.Without | jenkins-metrics.go:127-135 | a reset store has exactly the old series of the other families, with their old values |
| Gauges.ResetAllEmpties | jenkins-metrics.go:126-135 | resetting the nine families in the program's order leaves no series at all |
| Gauges.ApplySnoc | jenkins-metrics.go:171 | one more `Set` after a run of writes updates exactly that write's series |
| Gauges.ApplyFive | jenkins-metrics.go:171-178 | five `Set` calls in a row leave the store updated at each written series in turn, the last write to a series winning |
| Gauges.ApplyConcat | jenkins-metrics.go:143-269 | writing two runs one after the other is the same as writing their concatenation |
| Gauges.ApplyKeys | jenkins-metrics.go:143-269 | after a run of writes, the series present are the earlier ones plus the written ones; nothing else appears |
| Gauges.ApplyLastWrite | jenkins-metrics.go:171 | a series holds the value of the last write to it |
| Gauges.ApplyUntouched | jenkins-metrics.go:171 | a series no write touches keeps its presence and value |
| Mapping.EachAt | jenkins-metrics.go:205 | a per-stage write list has one write per stage, in stage order |
| Mapping.EachSnoc | jenkins-metrics.go:205 | one more loop iteration over the stages appends exactly that stage's write |
| Mapping.StatusWritesAt | jenkins-metrics.go:205-225 | the live pipeline gives one status write per stage, in order |
| Mapping.DurationWritesAt | jenkins-metrics.go:260-267 | the completed pipeline gives one duration write per stage, in order |
| Mapping.CaseWritesMembers | jenkins-metrics.go:245-255 | a suite produces a failure-age write exactly for each case that was not skipped and did not pass |
| Mapping.CaseWritesSnoc | jenkins-metrics.go:245-255 | one more test case adds its failure-age write when it is failing and nothing otherwise |
| Mapping.SuiteWritesMembers | jenkins-metrics.go:244-256 | the failure-age writes of a build are exactly those of the failing cases across all its suites |
| Mapping.ElapsedSecondsConcat | jenkins-metrics.go:203-206 | the elapsed time adds up over consecutive runs of stages |
| Mapping.ElapsedSecondsBounds | jenkins-metrics.go:206 | with non-negative stage durations, the elapsed time is non-negative and at most the total milliseconds over 1000 |
| Mapping.JobWritesParts | jenkins-metrics.go:164-267 | a job's writes are its completed-build writes, the running-build write, the live writes only while running, the success write, failure ages and stage durations |
| Mapping.PartFamilies | jenkins-metrics.go:205-267 | stage-status, failure-age and stage-duration writes each go to their own family |
| Mapping.ElapsedOnlyWhenRunning | jenkins-metrics.go:201-232 | an elapsed-time write exists only for a running build; there is one, and it holds the summed stage seconds |
| Mapping.LiveStatusSeries | jenkins-metrics.go:201-225 | stage-status writes exist exactly while a build runs, one per live stage |
| Mapping.FailureAgeSeries | jenkins-metrics.go:243-256 | failure-age writes exist exactly for the failing cases of the last completed build |
| Mapping.BuildSuccessSeries | jenkins-metrics.go:234-241 | one build-success write per job, labelled with the completed build, 0 exactly for a failed build |
| Mapping.RunningBuildSeries | jenkins-metrics.go:195-199 | one running-build write per job, whose `isgood` label is "1" exactly for a good last build |
| Mapping.StageDurationSeries | jenkins-metrics.go:258-267 | stage-duration writes exist exactly for the stages of the last completed pipeline |
| Mapping.CompletedLabelled | jenkins-metrics.go:165-178 | each duration, timestamp and test-count write carries as many labels as its family declares |
| Mapping.StatusWritesLabelled | jenkins-metrics.go:207-211 | each stage-status write carries the four labels of its family |
| Mapping.DurationWritesLabelled | jenkins-metrics.go:261-266 | each stage-duration write carries the four labels of its family |
| Mapping.SuiteWritesLabelled | jenkins-metrics.go:247-253 | each failure-age write carries the six labels of its family |
| Mapping.JobWritesWellFormed | jenkins-metrics.go:164-267 | every write a job makes has as many label values as its family has label names, so no `WithLabelValues` call panics |
| Mapping.SuccessWrittenLast | jenkins-metrics.go:234-267 | no later write of the same job overwrites the build-success series |
| Mapping.LiveFamilies | jenkins-metrics.go:201-232 | a running build's extra writes go only to the stage-status and elapsed-time families |
| Mapping.RunningWrittenLast | jenkins-metrics.go:195-267 | no later write of the same job overwrites the running-build series |
| Mapping.JobStore | jenkins-metrics.go:164-267 | after one job, build success is 0 exactly for a failed build, running build is 1 exactly while running, and an elapsed-time series exists exactly while running |
| Exporter.JobsOutcome | jenkins-metrics.go:143-162 | the job loop either completes or stops at a job of the list; it never reports a connection failure |
| Exporter.FetchedJobsAt | jenkins-metrics.go:143-162 | the jobs processed are a prefix of the configured list, each fetched under its own name |
| Exporter.FetchedJobsSnoc | jenkins-metrics.go:143-162 | a successful fetch appends that job to those processed |
| Exporter.FetchedJobsStop | jenkins-metrics.go:146-162 | the first failed fetch stops the pass: the jobs processed are those before it, and the outcome names it and the failed step |
| Exporter.AllFetchedCompletes | jenkins-metrics.go:143-269 | when every fetch succeeds, the pass completes |
| Exporter.CompletedFetchedAll | jenkins-metrics.go:143-269 | a completed pass fetched every configured job |
| Exporter.AbortedPass | jenkins-metrics.go:146-162 | an aborted pass names a job whose fetch failed at the named step; every job before it was fetched and processed, and none after |
| Exporter.LaterJobsIgnored | jenkins-metrics.go:146-162 | the jobs configured after the one whose fetch failed change neither the published series nor the outcome |
| Exporter.AllWritesFrom | jenkins-metrics.go:143-269 | every write of the pass comes from one of the processed jobs |
| Exporter.AllWritesContains | jenkins-metrics.go:143-269 | every write of a processed job is among the writes of the pass |
| Exporter.PassStore | jenkins-metrics.go:126-269 | after a pass, the series present are exactly those written; each belongs to a configured job that was fetched, so nothing from earlier passes survives |
| Exporter.PassSeriesOrigin | jenkins-metrics.go:143-269 | every series the pass writes belongs to a configured job whose fetches succeeded |
| Exporter.PassKeepsFetched | jenkins-metrics.go:143-162 | every series of a job processed before the pass ended, whether it completed or stopped at a failed fetch, is present after the pass |
| Exporter.SingleJobPass | jenkins-metrics.go:143-269 | a pass over one fetchable job writes that job's series and completes |
| Exporter.NextJob | jenkins-metrics.go:143-269 | processing one more fetched job extends the pass's writes by that job's writes |
| Exporter.RecordCompletedBuild | jenkins-metrics.go:164-178 | the duration, timestamp and three test-count series are set for the last completed build |
| Exporter.RecordRunningBuild | jenkins-metrics.go:201-232 | while running, each live stage's status is set in order, then the summed elapsed seconds |
| Exporter.RecordFailingCases | jenkins-metrics.go:243-256 | the nested suite and case loops set the failure age of exactly the failing cases, in order |
| Exporter.RecordSuiteCases | jenkins-metrics.go:245-255 | the inner case loop sets the failure age of exactly the failing cases of one suite, in order |
| Exporter.RecordStageDurations | jenkins-metrics.go:258-267 | each completed stage's duration is set in order, in whole seconds |
| Exporter.RecordJob | jenkins-metrics.go:164-267 | the loop body for one fetched job leaves the store that `JobWrites` gives |
| Exporter.RecordJobs | jenkins-metrics.go:143-269 | the job loop leaves the store of the writes of the jobs fetched before the first failure, and reports where it stopped |
| Exporter.UpdateMetrics | jenkins-metrics.go:106-270 | an unreachable server changes nothing; otherwise every family is reset and the store holds exactly the pass's writes |
| Settings.EffectiveInterval | jenkins-metrics.go:100-102 | the effective interval is positive: the configured value when set, 1800 seconds when zero |
| Settings.JenkinsSettings.constructor | config.go:12-18 | the settings record holds the URL, credentials, job list and update interval it was given |
| Settings.JenkinsSettings.ApplyIntervalDefault | jenkins-metrics.go:98-102 | after the default is applied, the update interval is positive and equals `EffectiveInterval` of the old value |

## Left out

- HTTP transport, TLS settings, credentials and client creation (jenkins-metrics.go:109-119) are not modelled. The server is a value, and the connection check (`Init`) is its `reachable` flag.
- The errors that the code drops are not modelled: the running flag's error, which the closure at lines 181-186 discards, the result set at line 175, and the two pipeline runs at lines 204 and 259. In the model these calls always answer, so the nil-pointer panics that would follow a failure are not modelled.
- Registering the gauges (lines 69-79), `main`, the HTTP handler and listener, the polling goroutine, its sleep, and the unsynchronised access between polling and scraping are not modelled. One call of `updateMetrics` is one method call here.
- Logging (lines 107, 122, 147, 154, 160, 268) is not modelled. Which early return was taken is reported as the `Outcome` result instead.
- Configuration loading (`loadConfig` in config.go, the `-config` flag, `log.Fatal` on a missing file) is not modelled. Settings are given as a value.
- The float64 conversions of gauge values are not modelled. Values are stored as `int`. This is exact for every value except the build duration.
- Exporter.RecordCompletedBuild: the build-duration gauge is weaker than the program. The model truncates the duration to whole seconds (`MillisToSeconds`, 1500 ms gives 1). The program divides the client library's floating-point duration by 1000 and publishes fractional seconds (1500 ms gives 1.5) (line 171). The store holds integers, and the client library is not part of this model.
- The build timestamp (`GetTimestamp().Local().Unix()`) is not modelled as a conversion. It is kept as the integer the snapshot gives.
- Encoders.StageIdLabelShape: the pad character of `%03s` is the constant `PadChar`, and no other property depends on which character it is.
- Overflow of the `int64` elapsed-time sum and of `int` build numbers is not modelled. Integers are unbounded.
- `job.GetName()` is taken as the job record's `name`. The model does not require it to equal the configured job name.
