/** The deployment correlator (`internal/deploy/metrics.go`): one latency
    metric per release whose commit and finish time are known, and the
    per-PR grouping of those metrics. */
module DeployMetrics {
  import opened Wrappers
  import opened Text
  import opened DeployModels

  // ---------------------------------------------------------------------
  // ProcessDeployments.

  /** The release ID: the last `/`-separated segment of the release name. */
  function ReleaseID(name: string): string {
    LastSegment(name, '/')
  }

  lemma ReleaseIDIsLastSegment(name: string)
    ensures '/' !in ReleaseID(name)
    ensures exists k :: 0 <= k <= |name| && name[k..] == ReleaseID(name) && (k == 0 || name[k - 1] == '/')
  {
    LastSegmentIsSuffix(name, '/');
  }

  /** The metric of one release, or none when its commit or its finish time
      cannot be found. */
  function MetricOfRelease(src: ReleaseSource, release: Release): Option<DeploymentMetric> {
    match src.extract(release)
    case Err(_) => None
    case Ok(commit) =>
      match src.finishTime(release)
      case Err(_) => None
      case Ok(finish) =>
        Some(DeploymentMetric(ReleaseID(release.name), release.name, commit.0, commit.1, commit.2,
                              release.createTime, finish, finish - commit.2, true))
  }

  function DeploymentsSpec(src: ReleaseSource, releases: seq<Release>): seq<DeploymentMetric> {
    if |releases| == 0 then []
    else
      var m := MetricOfRelease(src, releases[|releases| - 1]);
      DeploymentsSpec(src, releases[..|releases| - 1]) + (if m.Some? then [m.value] else [])
  }

  /** No more metrics than releases; each is the metric of one of them, marked
      successful, with latency finish minus commit time (negative when the
      finish precedes the commit). */
  lemma {:induction false} DeploymentsSound(src: ReleaseSource, releases: seq<Release>)
    ensures |DeploymentsSpec(src, releases)| <= |releases|
    ensures forall m :: m in DeploymentsSpec(src, releases) ==>
              m.deploymentSuccessful && m.commitToDeployLatency == m.releaseFinishTime - m.commitTime
              && exists r :: r in releases && MetricOfRelease(src, r) == Some(m)
  {
    if |releases| > 0 {
      var init := releases[..|releases| - 1];
      DeploymentsSound(src, init);
      assert releases == init + [releases[|releases| - 1]];
    }
  }

  /** The metrics follow the order of the releases: those of a concatenation
      are the metrics of the first part, then those of the second. */
  lemma {:induction false} DeploymentsInOrder(src: ReleaseSource, a: seq<Release>, b: seq<Release>)
    ensures DeploymentsSpec(src, a + b) == DeploymentsSpec(src, a) + DeploymentsSpec(src, b)
    decreases |b|
  {
    if |b| == 0 {
      assert a + b == a;
    } else {
      var b' := b[..|b| - 1];
      DeploymentsInOrder(src, a, b');
      assert (a + b)[..|a + b| - 1] == a + b';
      assert (a + b)[|a + b| - 1] == b[|b| - 1];
    }
  }

  /** `ProcessDeployments`: a release whose commit or finish time cannot be
      found is skipped and the batch goes on. */
  method ProcessDeployments(src: ReleaseSource, releases: seq<Release>) returns (results: seq<DeploymentMetric>)
    ensures results == DeploymentsSpec(src, releases)
  {
    results := [];
    var i := 0;
    while i < |releases|
      invariant 0 <= i <= |releases|
      invariant results == DeploymentsSpec(src, releases[..i])
    {
      assert releases[..i + 1][..i] == releases[..i];
      var release := releases[i];
      var releaseID := LastSegment(release.name, '/');
      var extracted := src.extract(release);
      if extracted.Err? {
        i := i + 1;
        continue;
      }
      var (commitSha, prNumber, commitTime) := extracted.value;
      var releaseStartTime := release.createTime;
      var finish := src.finishTime(release);
      if finish.Err? {
        i := i + 1;
        continue;
      }
      var releaseFinishTime := finish.value;
      var latency := releaseFinishTime - commitTime;
      results := results + [DeploymentMetric(releaseID, release.name, commitSha, prNumber, commitTime,
                                             releaseStartTime, releaseFinishTime, latency, true)];
      i := i + 1;
    }
    assert releases[..|releases|] == releases;
  }

  // ---------------------------------------------------------------------
  // CalculatePRDeploymentStats.

  /** The metrics of PR `pr`, in input order. */
  function Group(ds: seq<DeploymentMetric>, pr: string): seq<DeploymentMetric> {
    if |ds| == 0 then []
    else Group(ds[..|ds| - 1], pr) + (if ds[|ds| - 1].prNumber == pr then [ds[|ds| - 1]] else [])
  }

  lemma {:induction false} GroupMembers(ds: seq<DeploymentMetric>, pr: string)
    ensures forall d :: d in Group(ds, pr) <==> d in ds && d.prNumber == pr
  {
    if |ds| > 0 {
      GroupMembers(ds[..|ds| - 1], pr);
      assert ds == ds[..|ds| - 1] + [ds[|ds| - 1]];
    }
  }

  /** The PR numbers that get a group: every non-empty one. */
  function PRNumbers(ds: seq<DeploymentMetric>): set<string> {
    set d | d in ds && d.prNumber != "" :: d.prNumber
  }

  /** The grouping map `prMap` after the input `ds`. */
  function GroupMap(ds: seq<DeploymentMetric>): map<string, seq<DeploymentMetric>> {
    if |ds| == 0 then map[]
    else
      var m := GroupMap(ds[..|ds| - 1]);
      var d := ds[|ds| - 1];
      if d.prNumber != "" then m[d.prNumber := (if d.prNumber in m then m[d.prNumber] else []) + [d]] else m
  }

  /** The grouping map holds one group per non-empty PR number, and that
      group is the PR's metrics in input order. */
  lemma {:induction false} GroupMapIsGroups(ds: seq<DeploymentMetric>)
    ensures GroupMap(ds).Keys == PRNumbers(ds)
    ensures forall pr :: pr in GroupMap(ds) ==> GroupMap(ds)[pr] == Group(ds, pr) && |Group(ds, pr)| > 0
    ensures forall pr :: pr != "" && pr !in GroupMap(ds) ==> Group(ds, pr) == []
  {
    if |ds| > 0 {
      var init := ds[..|ds| - 1];
      var d := ds[|ds| - 1];
      GroupMapIsGroups(init);
      assert ds == init + [d];
      assert PRNumbers(ds) == PRNumbers(init) + (if d.prNumber != "" then {d.prNumber} else {});
      forall pr | pr in GroupMap(ds)
        ensures GroupMap(ds)[pr] == Group(ds, pr) && |Group(ds, pr)| > 0
      {
        if pr != d.prNumber {
          assert Group(ds, pr) == Group(init, pr) + [];
        }
      }
    }
  }

  /** The grouping loop of `CalculatePRDeploymentStats`. */
  method GroupByPR(deployments: seq<DeploymentMetric>) returns (prMap: map<string, seq<DeploymentMetric>>)
    ensures prMap == GroupMap(deployments)
  {
    prMap := map[];
    var i := 0;
    while i < |deployments|
      invariant 0 <= i <= |deployments|
      invariant prMap == GroupMap(deployments[..i])
    {
      assert deployments[..i + 1][..i] == deployments[..i];
      var deployment := deployments[i];
      if deployment.prNumber != "" {
        var current := if deployment.prNumber in prMap then prMap[deployment.prNumber] else [];
        prMap := prMap[deployment.prNumber := current + [deployment]];
      }
      i := i + 1;
    }
    assert deployments[..|deployments|] == deployments;
  }

  predicate Distinct(xs: seq<string>) {
    forall i, j :: 0 <= i < j < |xs| ==> xs[i] != xs[j]
  }

  /** What the statistics of PR `pr` with metrics `g` must be. */
  ghost predicate StatsOfGroup(s: PRDeploymentStats, pr: string, g: seq<DeploymentMetric>) {
    s.prNumber == pr && s.deployments == g && s.deploymentCount == |g|
    && (forall d :: d in g ==> s.firstCommitTime <= d.commitTime)
    && (exists d :: d in g && d.commitTime == s.firstCommitTime)
    && (forall d :: d in g ==> d.releaseFinishTime <= s.lastFinishTime)
    && (exists d :: d in g && d.releaseFinishTime == s.lastFinishTime)
    && s.firstToLastDelta == s.lastFinishTime - s.firstCommitTime
    && Distinct(s.commitSHAs)
    && (forall x :: x in s.commitSHAs <==> exists d :: d in g && d.commitSHA == x)
  }

  /** The statistics of one group: earliest commit, latest finish, their
      difference, and the SHAs deployed, each once, in no particular order. */
  method GroupStats(pr: string, g: seq<DeploymentMetric>) returns (s: PRDeploymentStats)
    requires |g| > 0
    ensures StatsOfGroup(s, pr, g)
  {
    var firstCommitTime := g[0].commitTime;
    var lastFinishTime := g[0].releaseFinishTime;
    var commitShaSet: set<string> := {};
    var i := 0;
    while i < |g|
      invariant 0 <= i <= |g|
      invariant forall k :: 0 <= k < i ==> firstCommitTime <= g[k].commitTime && g[k].releaseFinishTime <= lastFinishTime
      invariant exists k :: 0 <= k < |g| && g[k].commitTime == firstCommitTime
      invariant exists k :: 0 <= k < |g| && g[k].releaseFinishTime == lastFinishTime
      invariant commitShaSet == set k | 0 <= k < i :: g[k].commitSHA
    {
      var deployment := g[i];
      if deployment.commitTime < firstCommitTime {
        firstCommitTime := deployment.commitTime;
      }
      if deployment.releaseFinishTime > lastFinishTime {
        lastFinishTime := deployment.releaseFinishTime;
      }
      commitShaSet := commitShaSet + {deployment.commitSHA};
      i := i + 1;
    }
    var commitShas: seq<string> := [];
    var rest := commitShaSet;
    while rest != {}
      invariant rest <= commitShaSet
      invariant Distinct(commitShas)
      invariant forall x :: x in commitShas <==> x in commitShaSet && x !in rest
      decreases |rest|
    {
      var sha :| sha in rest;
      commitShas := commitShas + [sha];
      rest := rest - {sha};
    }
    s := PRDeploymentStats(pr, |g|, firstCommitTime, lastFinishTime, lastFinishTime - firstCommitTime, commitShas, g);
    forall x
      ensures x in commitShas <==> exists d :: d in g && d.commitSHA == x
    {
      if x in commitShas {
        var k :| 0 <= k < |g| && g[k].commitSHA == x;
        assert g[k] in g;
      }
    }
  }

  /** What the walk over the grouping map leaves behind: one entry per
      non-empty group, each PR once, each entry its group's statistics. */
  ghost predicate StatsCoverMap(stats: seq<PRDeploymentStats>, prMap: map<string, seq<DeploymentMetric>>) {
    (forall k :: 0 <= k < |stats| ==> stats[k].prNumber in prMap)
    && (forall pr :: pr in prMap && |prMap[pr]| > 0 ==> exists k :: 0 <= k < |stats| && stats[k].prNumber == pr)
    && (forall i, j :: 0 <= i < j < |stats| ==> stats[i].prNumber != stats[j].prNumber)
    && (forall s :: s in stats ==> StatsInMap(s, prMap))
  }

  ghost predicate StatsInMap(s: PRDeploymentStats, prMap: map<string, seq<DeploymentMetric>>) {
    s.prNumber in prMap && StatsOfGroup(s, s.prNumber, prMap[s.prNumber])
  }

  lemma StatsOfGroupMap(deployments: seq<DeploymentMetric>, stats: seq<PRDeploymentStats>)
    requires StatsCoverMap(stats, GroupMap(deployments))
    ensures (set s | s in stats :: s.prNumber) == PRNumbers(deployments)
    ensures forall s :: s in stats ==> StatsOfGroup(s, s.prNumber, Group(deployments, s.prNumber))
  {
    GroupMapIsGroups(deployments);
    forall pr | pr in PRNumbers(deployments)
      ensures pr in (set s | s in stats :: s.prNumber)
    {
      var k :| 0 <= k < |stats| && stats[k].prNumber == pr;
      assert stats[k] in stats;
    }
  }

  /** `CalculatePRDeploymentStats`: one entry per non-empty PR number, in
      no particular order (the source walks a map). */
  method CalculatePRDeploymentStats(deployments: seq<DeploymentMetric>) returns (stats: seq<PRDeploymentStats>)
    ensures (set s | s in stats :: s.prNumber) == PRNumbers(deployments)
    ensures forall i, j :: 0 <= i < j < |stats| ==> stats[i].prNumber != stats[j].prNumber
    ensures forall s :: s in stats ==> StatsOfGroup(s, s.prNumber, Group(deployments, s.prNumber))
  {
    var prMap := GroupByPR(deployments);
    stats := [];
    var keys := prMap.Keys;
    while keys != {}
      invariant keys <= prMap.Keys
      invariant forall k :: 0 <= k < |stats| ==> stats[k].prNumber in prMap && stats[k].prNumber !in keys
      invariant forall pr :: pr in prMap && pr !in keys && |prMap[pr]| > 0 ==> exists k :: 0 <= k < |stats| && stats[k].prNumber == pr
      invariant forall i, j :: 0 <= i < j < |stats| ==> stats[i].prNumber != stats[j].prNumber
      invariant forall s :: s in stats ==> StatsInMap(s, prMap)
      decreases |keys|
    {
      var prNumber :| prNumber in keys;
      keys := keys - {prNumber};
      var prDeployments := prMap[prNumber];
      if |prDeployments| == 0 {
        continue;
      }
      var s := GroupStats(prNumber, prDeployments);
      ghost var before := stats;
      stats := stats + [s];
      assert stats[|stats| - 1].prNumber == prNumber;
      forall pr | pr in prMap && pr !in keys && |prMap[pr]| > 0
        ensures exists k :: 0 <= k < |stats| && stats[k].prNumber == pr
      {
        if pr != prNumber {
          var k :| 0 <= k < |before| && before[k].prNumber == pr;
          assert stats[k] == before[k];
        }
      }
    }
    StatsOfGroupMap(deployments, stats);
  }
}
