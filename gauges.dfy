/** The nine gauge vectors the exporter publishes, seen as one store that maps
    a series (family and label values) to its current value. */
module Gauges {

  datatype Family =
    | RunningBuild
    | RunningBuildPipelineStatus
    | RunningBuildElapsedTime
    | BuildSuccess
    | BuildDurationSeconds
    | BuildTimestamp
    | BuildTestCount
    | BuildTestCaseFailureAge
    | BuildPipelineDurationSeconds
  {
    /** The metric name the family is registered under; it documents which exported
        gauge each family stands for and plays no part in the proofs. */
    function MetricName(): string
    {
      match this
      case RunningBuild => "jenkins_running_build"
      case RunningBuildPipelineStatus => "jenkins_running_build_pipeline_status"
      case RunningBuildElapsedTime => "jenkins_running_build_elapsed_time"
      case BuildSuccess => "jenkins_build_success"
      case BuildDurationSeconds => "jenkins_build_duration_seconds"
      case BuildTimestamp => "jenkins_build_timestamp"
      case BuildTestCount => "jenkins_build_test_count"
      case BuildTestCaseFailureAge => "jenkins_build_test_case_failure_age"
      case BuildPipelineDurationSeconds => "jenkins_build_pipeline_duration_seconds"
    }

    /** The label names the family is declared with; every series carries one value per name. */
    function LabelNames(): seq<string>
    {
      match this
      case RunningBuild => ["jobname", "buildid", "isgood"]
      case RunningBuildPipelineStatus => ["jobname", "buildid", "id", "stage"]
      case RunningBuildElapsedTime => ["jobname", "buildid", "isgood"]
      case BuildSuccess => ["jobname", "buildid"]
      case BuildDurationSeconds => ["jobname", "buildid"]
      case BuildTimestamp => ["jobname", "buildid"]
      case BuildTestCount => ["jobname", "buildid", "result"]
      case BuildTestCaseFailureAge => ["jobname", "buildid", "suite", "case", "status", "failedsince"]
      case BuildPipelineDurationSeconds => ["jobname", "buildid", "id", "stage"]
    }
  }

  /** How many label values a series of each family carries. */
  function Arity(f: Family): nat
  {
    |f.LabelNames()|
  }

  datatype Series = Series(family: Family, labels: seq<string>)

  /** One `WithLabelValues(labels...).Set(value)` call. */
  datatype Write = Write(series: Series, value: int)

  type Store = map<Series, int>

  /** Every series carries exactly as many label values as its family declares. */
  ghost predicate WellFormed(m: Store)
  {
    forall s :: s in m ==> |s.labels| == Arity(s.family)
  }

  /** The store after a sequence of writes, applied first to last; a later write
      to the same series overwrites an earlier one. */
  function Apply(m: Store, ws: seq<Write>): Store
    decreases |ws|
  {
    if ws == [] then m
    else
      var w := ws[|ws| - 1];
      Apply(m, ws[..|ws| - 1])[w.series := w.value]
  }

  /** The series a sequence of writes touches. */
  function Written(ws: seq<Write>): set<Series>
  {
    set w | w in ws :: w.series
  }

  lemma ApplySnoc(m: Store, ws: seq<Write>, w: Write)
    ensures Apply(m, ws + [w]) == Apply(m, ws)[w.series := w.value]
  {
    assert (ws + [w])[..|ws|] == ws;
  }

  /** Five writes in a row: each updates its own series, in order. */
  lemma ApplyFive(m: Store, ws: seq<Write>)
    requires |ws| == 5
    ensures Apply(m, ws) == m[ws[0].series := ws[0].value][ws[1].series := ws[1].value]
                             [ws[2].series := ws[2].value][ws[3].series := ws[3].value]
                             [ws[4].series := ws[4].value]
  {
    assert ws[..4][..3] == ws[..3] && ws[..3][..2] == ws[..2] && ws[..2][..1] == ws[..1];
    assert Apply(m, ws[..1]) == m[ws[0].series := ws[0].value];
    assert Apply(m, ws[..2]) == Apply(m, ws[..1])[ws[1].series := ws[1].value];
    assert Apply(m, ws[..3]) == Apply(m, ws[..2])[ws[2].series := ws[2].value];
    assert Apply(m, ws[..4]) == Apply(m, ws[..3])[ws[3].series := ws[3].value];
  }

  /** Applying two batches of writes one after the other is applying their concatenation. */
  lemma {:induction false} ApplyConcat(m: Store, a: seq<Write>, b: seq<Write>)
    ensures Apply(m, a + b) == Apply(Apply(m, a), b)
    decreases |b|
  {
    if b == [] {
      assert a + b == a;
    } else {
      var w := b[|b| - 1];
      assert a + b == (a + b[..|b| - 1]) + [w];
      ApplySnoc(m, a + b[..|b| - 1], w);
      ApplyConcat(m, a, b[..|b| - 1]);
    }
  }

  /** After a batch of writes the store holds exactly the series it held before and the series written. */
  lemma {:induction false} ApplyKeys(m: Store, ws: seq<Write>)
    ensures Apply(m, ws).Keys == m.Keys + Written(ws)
    decreases |ws|
  {
    if ws != [] {
      var w := ws[|ws| - 1];
      assert ws == ws[..|ws| - 1] + [w];
      ApplyKeys(m, ws[..|ws| - 1]);
      assert Written(ws) == Written(ws[..|ws| - 1]) + {w.series};
    }
  }

  /** A series holds the value of the last write to it. */
  lemma {:induction false} ApplyLastWrite(m: Store, ws: seq<Write>, i: nat)
    requires i < |ws|
    requires forall j :: i < j < |ws| ==> ws[j].series != ws[i].series
    ensures ws[i].series in Apply(m, ws) && Apply(m, ws)[ws[i].series] == ws[i].value
    decreases |ws|
  {
    if i < |ws| - 1 {
      ApplyLastWrite(m, ws[..|ws| - 1], i);
    }
  }

  /** A series no write touches keeps its presence and value. */
  lemma {:induction false} ApplyUntouched(m: Store, ws: seq<Write>, s: Series)
    requires s !in Written(ws)
    ensures s in Apply(m, ws) <==> s in m
    ensures s in m ==> Apply(m, ws)[s] == m[s]
    decreases |ws|
  {
    if ws != [] {
      assert ws[|ws| - 1] in ws;
      assert Written(ws[..|ws| - 1]) <= Written(ws);
      ApplyUntouched(m, ws[..|ws| - 1], s);
    }
  }

  /** The store without the series of family `f`. */
  function Without(m: Store, f: Family): (r: Store)
    ensures forall s :: s in r <==> s in m && s.family != f
    ensures forall s :: s in r ==> r[s] == m[s]
  {
    map s | s in m && s.family != f :: m[s]
  }

  /** Resetting all nine families, in the order the pass does, empties any store. */
  lemma ResetAllEmpties(m: Store)
    ensures Without(Without(Without(Without(Without(Without(Without(Without(Without(m,
              RunningBuild), RunningBuildElapsedTime), RunningBuildPipelineStatus), BuildSuccess),
              BuildDurationSeconds), BuildTestCount), BuildPipelineDurationSeconds),
              BuildTestCaseFailureAge), BuildTimestamp) == map[]
  {
    var r := Without(Without(Without(Without(Without(Without(Without(Without(Without(m,
              RunningBuild), RunningBuildElapsedTime), RunningBuildPipelineStatus), BuildSuccess),
              BuildDurationSeconds), BuildTestCount), BuildPipelineDurationSeconds),
              BuildTestCaseFailureAge), BuildTimestamp);
    forall s | s in r
      ensures false
    {
      match s.family
      case _ =>
    }
  }

  /** The gauge vectors of the exporter: one map from series to value. */
  class GaugeVecs {
    var series: Store

    ghost predicate Valid()
      reads this
    {
      WellFormed(series)
    }

    /** The vectors as registered: no series yet. */
    constructor ()
      ensures Valid() && series == map[]
    {
      series := map[];
    }

    /** `Reset` on one vector: drops every series of family `f` and no other. */
    method Reset(f: Family)
      requires Valid()
      modifies this
      ensures Valid()
      ensures series == Without(old(series), f)
    {
      series := Without(series, f);
    }

    /** `WithLabelValues(labels...).Set(v)` on vector `f`: creates or overwrites one series. */
    method Set(f: Family, labels: seq<string>, v: int)
      requires Valid()
      requires |labels| == Arity(f)
      modifies this
      ensures Valid()
      ensures series == old(series)[Series(f, labels) := v]
    {
      series := series[Series(f, labels) := v];
    }
  }
}
