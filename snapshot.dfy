/** The part of the Jenkins API that one polling pass reads, as plain values.
    The client calls (`Init`, `GetJob`, `GetLastCompletedBuild`, `GetLastBuild`,
    `GetResultSet`, `GetPipelineRun`) are replaced by this snapshot: whether the
    server answered at all, and for each job name what fetching it gives. */
module Snapshot {

  /** One node of a pipeline run (`livePipe.Stages`, `lastCompletedPipeline.Stages`). */
  datatype Stage = Stage(id: string, name: string, status: string, durationMillis: int)

  /** One test case of a suite in a build's test report. */
  datatype TestCase = TestCase(name: string, status: string, skipped: bool, failedSince: int, age: int)

  datatype Suite = Suite(name: string, cases: seq<TestCase>)

  /** The test report of a build: the three counters and the suites. */
  datatype ResultSet = ResultSet(failCount: int, skipCount: int, passCount: int, suites: seq<Suite>)

  /** The last completed build of a job, with the stages of its pipeline run. */
  datatype CompletedBuild = CompletedBuild(
    number: int,
    durationMillis: int,
    timestamp: int,
    result: string,
    tests: ResultSet,
    stages: seq<Stage>)

  /** The last build of a job (possibly still running), with the stages of its pipeline run. */
  datatype LastBuild = LastBuild(number: int, isGood: bool, stages: seq<Stage>)

  /** Everything the pass reads about one job once all three fetches succeeded. */
  datatype JobRecord = JobRecord(name: string, running: bool, completed: CompletedBuild, last: LastBuild)

  /** The client call that failed for a job. */
  datatype FetchStep = GetJob | GetLastCompletedBuild | GetLastBuild

  datatype JobFetch = Fetched(job: JobRecord) | FetchFailed(step: FetchStep)

  /** The server as one pass sees it. A job name the map lacks does not exist. */
  datatype Server = Server(reachable: bool, jobs: map<string, JobFetch>)

  function Fetch(server: Server, jobName: string): JobFetch
  {
    if jobName in server.jobs then server.jobs[jobName] else FetchFailed(GetJob)
  }
}
