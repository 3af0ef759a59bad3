/** The `deploy-tracker` command (`cmd/deploy-tracker/main.go`): the latency
    summary and the per-PR deployment summary it prints. Printing itself is
    not part of the model; each method returns what would be shown. */
module DeployTracker {
  import opened Wrappers
  import opened Sorting
  import opened Stats
  import opened DeployModels

  // ---------------------------------------------------------------------
  // printDeploymentSummaryStatistics.

  /** The latency samples: successful deployments with a positive latency. */
  function LatencySamples(results: seq<DeploymentMetric>): seq<int> {
    if |results| == 0 then []
    else
      var r := results[|results| - 1];
      LatencySamples(results[..|results| - 1])
      + (if r.deploymentSuccessful && r.commitToDeployLatency > 0 then [r.commitToDeployLatency] else [])
  }

  /** A latency is sampled exactly when it is positive and its deployment
      succeeded; zero and negative latencies are left out. */
  lemma {:induction false} LatencySamplesMembers(results: seq<DeploymentMetric>)
    ensures forall x :: x in LatencySamples(results) <==>
              exists r :: r in results && r.deploymentSuccessful && r.commitToDeployLatency > 0 && r.commitToDeployLatency == x
    ensures |LatencySamples(results)| <= |results|
  {
    if |results| > 0 {
      LatencySamplesMembers(results[..|results| - 1]);
      assert results == results[..|results| - 1] + [results[|results| - 1]];
    }
  }

  lemma {:induction false} LatencySamplesPositive(results: seq<DeploymentMetric>)
    ensures forall i :: 0 <= i < |LatencySamples(results)| ==> LatencySamples(results)[i] > 0
  {
    if |results| > 0 {
      LatencySamplesPositive(results[..|results| - 1]);
    }
  }

  method CollectLatencies(results: seq<DeploymentMetric>) returns (latencies: seq<int>, total: int)
    ensures latencies == LatencySamples(results) && total == Sum(latencies)
  {
    latencies, total := [], 0;
    var i := 0;
    while i < |results|
      invariant 0 <= i <= |results|
      invariant latencies == LatencySamples(results[..i]) && total == Sum(latencies)
    {
      assert results[..i + 1][..i] == results[..i];
      var result := results[i];
      if result.deploymentSuccessful && result.commitToDeployLatency > 0 {
        SumAppend(latencies, result.commitToDeployLatency);
        latencies := latencies + [result.commitToDeployLatency];
        total := total + result.commitToDeployLatency;
      }
      i := i + 1;
    }
    assert results[..|results|] == results;
  }

  /** `printDeploymentSummaryStatistics`: mean and median latency, when
      there is at least one sample. */
  method DeploymentSummaryStatistics(results: seq<DeploymentMetric>) returns (latency: Option<Summary>)
    ensures SummaryOf(latency, LatencySamples(results))
  {
    var latencies, total := CollectLatencies(results);
    latency := Summarize(latencies, total);
  }

  /** A shown mean or median latency is positive. */
  lemma LatencySummaryPositive(results: seq<DeploymentMetric>, latency: Option<Summary>)
    requires SummaryOf(latency, LatencySamples(results))
    ensures latency.Some? ==> latency.value.mean > 0 && latency.value.median > 0
  {
    LatencySamplesPositive(results);
    PositiveSummary(latency, LatencySamples(results));
  }

  // ---------------------------------------------------------------------
  // printPRDeploymentStatistics.

  function CountOf(s: PRDeploymentStats): int {
    s.deploymentCount
  }

  function TotalDeployments(stats: seq<PRDeploymentStats>): int {
    if |stats| == 0 then 0 else TotalDeployments(stats[..|stats| - 1]) + stats[|stats| - 1].deploymentCount
  }

  function MultipleDeploymentPRs(stats: seq<PRDeploymentStats>): nat {
    if |stats| == 0 then 0
    else MultipleDeploymentPRs(stats[..|stats| - 1]) + (if stats[|stats| - 1].deploymentCount > 1 then 1 else 0)
  }

  /** The largest deployment count, starting from 0. */
  function MaxDeployments(stats: seq<PRDeploymentStats>): (m: int)
    ensures m >= 0
    ensures forall i :: 0 <= i < |stats| ==> stats[i].deploymentCount <= m
    ensures m == 0 || exists i :: 0 <= i < |stats| && stats[i].deploymentCount == m
  {
    if |stats| == 0 then 0
    else
      var m := MaxDeployments(stats[..|stats| - 1]);
      assert forall i :: 0 <= i < |stats| - 1 ==> stats[..|stats| - 1][i] == stats[i];
      if stats[|stats| - 1].deploymentCount > m then stats[|stats| - 1].deploymentCount else m
  }

  /** The number of PRs deployed more than once is at most the number of PRs,
      and is zero exactly when no PR has more than one deployment. */
  lemma {:induction false} MultipleDeploymentPRsBounds(stats: seq<PRDeploymentStats>)
    ensures MultipleDeploymentPRs(stats) <= |stats|
    ensures MultipleDeploymentPRs(stats) == 0 <==> forall i :: 0 <= i < |stats| ==> stats[i].deploymentCount <= 1
  {
    if |stats| > 0 {
      var init := stats[..|stats| - 1];
      MultipleDeploymentPRsBounds(init);
      assert forall i :: 0 <= i < |init| ==> init[i] == stats[i];
    }
  }

  /** The counter loop of `printPRDeploymentStatistics`. */
  method SummaryCounters(stats: seq<PRDeploymentStats>) returns (totalDeployments: int, multiple: nat, maxDeployments: int)
    ensures totalDeployments == TotalDeployments(stats)
    ensures multiple == MultipleDeploymentPRs(stats)
    ensures maxDeployments == MaxDeployments(stats)
  {
    totalDeployments, multiple, maxDeployments := 0, 0, 0;
    var i := 0;
    while i < |stats|
      invariant 0 <= i <= |stats|
      invariant totalDeployments == TotalDeployments(stats[..i])
      invariant multiple == MultipleDeploymentPRs(stats[..i])
      invariant maxDeployments == MaxDeployments(stats[..i])
    {
      assert stats[..i + 1][..i] == stats[..i];
      var pr := stats[i];
      totalDeployments := totalDeployments + pr.deploymentCount;
      if pr.deploymentCount > 1 {
        multiple := multiple + 1;
      }
      if pr.deploymentCount > maxDeployments {
        maxDeployments := pr.deploymentCount;
      }
      i := i + 1;
    }
    assert stats[..|stats|] == stats;
  }

  /** What the PR summary shows: the number of PRs, the total deployments,
      the PRs deployed more than once and the largest count. */
  datatype PRSummary = PRSummary(prs: int, totalDeployments: int, multiple: int, maxDeployments: int)

  /** `printPRDeploymentStatistics`: nothing for no PRs; otherwise the stats
      are sorted in place, most deployed first, and counted. */
  method PRDeploymentStatistics(prStats: array<PRDeploymentStats>) returns (r: Option<PRSummary>)
    modifies prStats
    ensures multiset(prStats[..]) == multiset(old(prStats[..]))
    ensures prStats.Length == 0 ==> r.None?
    ensures prStats.Length > 0 ==>
              SortedBy(prStats[..], CountOf, true)
              && r == Some(PRSummary(prStats.Length, TotalDeployments(prStats[..]), MultipleDeploymentPRs(prStats[..]),
                                     MaxDeployments(prStats[..])))
  {
    if prStats.Length == 0 {
      return None;
    }
    SortBy(prStats, CountOf, true);
    var total, multiple, maxDeployments := SummaryCounters(prStats[..]);
    r := Some(PRSummary(prStats.Length, total, multiple, maxDeployments));
  }

  /** The largest count of a sorted list is its first entry. */
  lemma MaxIsFirstWhenSorted(stats: seq<PRDeploymentStats>)
    requires |stats| > 0 && SortedBy(stats, CountOf, true) && stats[0].deploymentCount >= 0
    ensures MaxDeployments(stats) == stats[0].deploymentCount
  {
    assert forall i :: 0 < i < |stats| ==> CountOf(stats[0]) >= CountOf(stats[i]);
  }

  /** What `printResults` shows after the list of deployments. */
  datatype Report = Report(latency: Option<Summary>, prs: Option<PRSummary>)

  /** `printResults`: an empty result list shows nothing further. */
  method PrintResults(results: seq<DeploymentMetric>, prStats: array<PRDeploymentStats>) returns (r: Option<Report>)
    modifies prStats
    ensures r.None? <==> |results| == 0
    ensures r.None? ==> prStats[..] == old(prStats[..])
    ensures r.Some? ==> SummaryOf(r.value.latency, LatencySamples(results))
    ensures r.Some? ==> multiset(prStats[..]) == multiset(old(prStats[..]))
    ensures r.Some? && prStats.Length > 0 ==>
              SortedBy(prStats[..], CountOf, true)
              && r.value.prs == Some(PRSummary(prStats.Length, TotalDeployments(prStats[..]),
                                               MultipleDeploymentPRs(prStats[..]), MaxDeployments(prStats[..])))
    ensures r.Some? && prStats.Length == 0 ==> r.value.prs.None?
  {
    if |results| == 0 {
      return None;
    }
    var latency := DeploymentSummaryStatistics(results);
    var prs := PRDeploymentStatistics(prStats);
    r := Some(Report(latency, prs));
  }
}
