/** The flaky-test records of CircleCI's insights API
    (`internal/circleci/models.go`) and their conversion into metrics
    (`internal/circleci/metrics.go`). Times are nanoseconds. */
module CircleCI {
  import opened Wrappers
  import opened Sorting
  import opened Times

  datatype PipelineRun = PipelineRun(workflowID: string, pipelineID: string, createdAt: int)

  /** A flaky test; a test reported without its pipeline run has `None`. */
  datatype FlakyTest = FlakyTest(testName: string, className: string, timesFlaky: int, pipelineRun: Option<PipelineRun>)

  datatype FlakyTestMetric = FlakyTestMetric(testName: string, className: string, timesFlaky: int, lastOccurred: Option<int>)

  datatype CircleCIError = CircleCIError(message: string)

  /** The metric of one test: its names and count, and the creation time of
      its pipeline run when there is one. */
  function MetricOf(t: FlakyTest): FlakyTestMetric {
    FlakyTestMetric(t.testName, t.className, t.timesFlaky,
                    if t.pipelineRun.Some? then Some(t.pipelineRun.value.createdAt) else None)
  }

  /** The metrics of `tests`, in input order. */
  function Metrics(tests: seq<FlakyTest>): (ms: seq<FlakyTestMetric>)
    ensures |ms| == |tests|
  {
    if |tests| == 0 then [] else Metrics(tests[..|tests| - 1]) + [MetricOf(tests[|tests| - 1])]
  }

  lemma {:induction false} MetricsAt(tests: seq<FlakyTest>)
    ensures forall i :: 0 <= i < |tests| ==> Metrics(tests)[i] == MetricOf(tests[i])
  {
    if |tests| > 0 {
      MetricsAt(tests[..|tests| - 1]);
    }
  }

  function TimesFlakyOf(m: FlakyTestMetric): int {
    m.timesFlaky
  }

  /** `ProcessFlakyTests`: one metric per test, most flaky first. Tests as
      flaky as each other come in an unspecified order. */
  method ProcessFlakyTests(tests: seq<FlakyTest>) returns (results: seq<FlakyTestMetric>)
    ensures |results| == |tests|
    ensures SortedBy(results, TimesFlakyOf, true)
    ensures multiset(results) == multiset(Metrics(tests))
  {
    var metrics: seq<FlakyTestMetric> := [];
    var i := 0;
    while i < |tests|
      invariant 0 <= i <= |tests|
      invariant metrics == Metrics(tests[..i])
    {
      assert tests[..i + 1][..i] == tests[..i];
      var test := tests[i];
      var metric := FlakyTestMetric(test.testName, test.className, test.timesFlaky, None);
      if test.pipelineRun.Some? {
        metric := metric.(lastOccurred := Some(test.pipelineRun.value.createdAt));
      }
      metrics := metrics + [metric];
      i := i + 1;
    }
    assert tests[..|tests|] == tests;
    var a := new FlakyTestMetric[|metrics|](k requires 0 <= k < |metrics| => metrics[k]);
    assert a[..] == metrics;
    SortBy(a, TimesFlakyOf, true);
    results := a[..];
    assert |multiset(results)| == |multiset(metrics)|;
  }

  /** Every result is the metric of an input test and every input test has
      its metric among the results: names and counts are copied, and
      `lastOccurred` is set exactly when the test has a pipeline run, to
      that run's creation time. */
  lemma ResultsAreTheTestsMetrics(tests: seq<FlakyTest>, results: seq<FlakyTestMetric>)
    requires multiset(results) == multiset(Metrics(tests))
    ensures forall m :: m in results <==> exists t :: t in tests && m == MetricOf(t)
    ensures forall m :: m in results ==>
              (m.lastOccurred.Some? <==> exists t :: (t in tests && MetricOf(t) == m && t.pipelineRun.Some?))
  {
    MetricsAt(tests);
    forall m
      ensures m in results <==> exists t :: t in tests && m == MetricOf(t)
    {
      assert m in results <==> m in multiset(Metrics(tests));
      if m in results {
        var i :| 0 <= i < |Metrics(tests)| && Metrics(tests)[i] == m;
        assert tests[i] in tests;
      }
      if exists t :: t in tests && m == MetricOf(t) {
        var t :| t in tests && m == MetricOf(t);
        var i :| 0 <= i < |tests| && tests[i] == t;
        assert Metrics(tests)[i] == m;
      }
    }
  }

  /** The three tests of the package's own test, the first created an hour
      and the second two hours before `t`. */
  function ExampleTests(t: int): seq<FlakyTest> {
    [FlakyTest("TestAlwaysFails", "com.example.MyTestClass", 5, Some(PipelineRun("workflow-1", "pipeline-1", t - Hour))),
     FlakyTest("TestSometimesFails", "com.example.AnotherTestClass", 2, Some(PipelineRun("workflow-2", "pipeline-2", t - 2 * Hour))),
     FlakyTest("TestRarelyFails", "com.example.StableTestClass", 1, None)]
  }

  lemma ExampleMetrics(t: int)
    ensures Metrics(ExampleTests(t)) == [MetricOf(ExampleTests(t)[0]), MetricOf(ExampleTests(t)[1]), MetricOf(ExampleTests(t)[2])]
  {
    MetricsAt(ExampleTests(t));
  }

  /** Sorting those three tests puts the most flaky first, with its last
      occurrence set, and the one without a pipeline run last. */
  lemma ThreeTestsExample(t: int, results: seq<FlakyTestMetric>)
    requires multiset(results) == multiset(Metrics(ExampleTests(t))) && SortedBy(results, TimesFlakyOf, true)
    ensures |results| == 3
    ensures results[0].testName == "TestAlwaysFails" && results[0].timesFlaky == 5 && results[0].lastOccurred.Some?
    ensures results[2].testName == "TestRarelyFails" && results[2].lastOccurred.None?
  {
    var tests := ExampleTests(t);
    ExampleMetrics(t);
    var ms := Metrics(tests);
    assert |results| == |multiset(results)| == 3;
    assert ms[0] in multiset(results) && ms[2] in multiset(results);
    var i0 :| 0 <= i0 < 3 && results[i0] == ms[0];
    var i2 :| 0 <= i2 < 3 && results[i2] == ms[2];
    assert forall k :: 0 <= k < 3 ==> TimesFlakyOf(results[0]) >= TimesFlakyOf(results[k]) >= TimesFlakyOf(results[2]);
    assert TimesFlakyOf(results[0]) >= TimesFlakyOf(results[i0]) && TimesFlakyOf(results[i2]) >= TimesFlakyOf(results[2]);
    assert results[0] in multiset(ms) && results[2] in multiset(ms);
  }
}
