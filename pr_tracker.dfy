/** The `pr-tracker` command (`cmd/pr-tracker/main.go`): its own copy of the
    PR loop, without the tags-repository search, and the sample collection
    behind its summary statistics. Flag parsing and printing are not part
    of the model. */
module PRTracker {
  import opened Wrappers
  import opened Text
  import opened Sorting
  import opened Stats
  import opened GitHubTypes
  import GitHubMetrics

  /** The tool's `Result` record: the library's metric without tag commits. */
  datatype PRResult = PRResult(
    prTitle: string,
    prNumber: int,
    author: string,
    timeToFirstReview: int,
    firstReviewer: string,
    firstReviewState: string,
    timeToApproval: int,
    approver: string,
    hasReview: bool,
    timeSinceCreation: int)

  /** The deny-list of the `-exclude` flag: its comma-separated parts. */
  function DenyList(exclude: string): seq<string> {
    Split(exclude, ',')
  }

  /** With an empty `-exclude` flag the deny-list is `[""]`, so a PR or a
      review whose login is empty is skipped. */
  lemma EmptyExcludeSkipsEmptyLogins(pr: PullRequest, review: Review)
    ensures DenyList("") == [""]
    ensures pr.author == "" ==> !GitHubMetrics.Eligible(pr, DenyList(""))
    ensures review.user == "" ==> !GitHubMetrics.CountsAsReview(review, pr.author, DenyList(""))
  {
  }

  /** The result of an eligible PR whose reviews are `reviews`. */
  function ResultOf(pr: PullRequest, reviews: seq<Review>, denylist: seq<string>, now: int): PRResult {
    var v := GitHubMetrics.ValidReviews(reviews, pr.author, denylist);
    var first := GitHubMetrics.Earliest(v);
    var approval := GitHubMetrics.Earliest(GitHubMetrics.Approvals(v));
    PRResult(
      pr.title, pr.number, pr.author,
      if first.Some? then first.value.submittedAt - pr.createdAt else 0,
      GitHubMetrics.UserOf(first), GitHubMetrics.StateOf(first),
      if approval.Some? then approval.value.submittedAt - pr.createdAt else 0,
      GitHubMetrics.UserOf(approval),
      |v| > 0,
      now - pr.createdAt)
  }

  function ResultsOfPR(api: GitHubApi, pr: PullRequest, owner: string, repo: string, denylist: seq<string>,
                       now: int): seq<PRResult>
  {
    if !GitHubMetrics.Eligible(pr, denylist) then []
    else match api.fetchPullRequestReviews(owner, repo, pr.number)
      case Err(_) => []
      case Ok(reviews) => [ResultOf(pr, reviews, denylist, now)]
  }

  function ProcessSpec(api: GitHubApi, prs: seq<PullRequest>, owner: string, repo: string, denylist: seq<string>,
                       now: int): seq<PRResult>
  {
    if |prs| == 0 then []
    else ProcessSpec(api, prs[..|prs| - 1], owner, repo, denylist, now)
         + ResultsOfPR(api, prs[|prs| - 1], owner, repo, denylist, now)
  }

  /** A library metric with its tag commits dropped. */
  function WithoutTags(m: PullRequestMetric): PRResult {
    PRResult(m.prTitle, m.prNumber, m.author, m.timeToFirstReview, m.firstReviewer, m.firstReviewState,
             m.timeToApproval, m.approver, m.hasReview, m.timeSinceCreation)
  }

  function AllWithoutTags(ms: seq<PullRequestMetric>): (rs: seq<PRResult>)
    ensures |rs| == |ms|
  {
    if |ms| == 0 then [] else AllWithoutTags(ms[..|ms| - 1]) + [WithoutTags(ms[|ms| - 1])]
  }

  lemma AllWithoutTagsAppend(a: seq<PullRequestMetric>, b: seq<PullRequestMetric>)
    requires |b| <= 1
    ensures AllWithoutTags(a + b) == AllWithoutTags(a) + AllWithoutTags(b)
  {
    if |b| == 1 {
      assert (a + b)[..|a + b| - 1] == a;
    } else {
      assert a + b == a;
    }
  }

  /** The tool's loop reports what the library's `ProcessPullRequests`
      reports, whatever tags repository the library is given, less the tag
      commits: the same PRs, skipped by the same rules, in the same order,
      with the same review fields. */
  lemma {:induction false} SameAsLibrary(api: GitHubApi, prs: seq<PullRequest>, owner: string, repo: string,
                                         denylist: seq<string>, tagsOwner: string, tagsRepo: string, now: int)
    ensures ProcessSpec(api, prs, owner, repo, denylist, now)
            == AllWithoutTags(GitHubMetrics.ProcessSpec(api, prs, owner, repo, denylist, tagsOwner, tagsRepo, now))
  {
    if |prs| > 0 {
      var init := prs[..|prs| - 1];
      var pr := prs[|prs| - 1];
      SameAsLibrary(api, init, owner, repo, denylist, tagsOwner, tagsRepo, now);
      var lib := GitHubMetrics.MetricsOfPR(api, pr, owner, repo, denylist, tagsOwner, tagsRepo, now);
      AllWithoutTagsAppend(GitHubMetrics.ProcessSpec(api, init, owner, repo, denylist, tagsOwner, tagsRepo, now), lib);
      OnePRAsLibrary(api, pr, owner, repo, denylist, tagsOwner, tagsRepo, now);
    }
  }

  /** The same for a single PR. */
  lemma OnePRAsLibrary(api: GitHubApi, pr: PullRequest, owner: string, repo: string,
                       denylist: seq<string>, tagsOwner: string, tagsRepo: string, now: int)
    ensures ResultsOfPR(api, pr, owner, repo, denylist, now)
            == AllWithoutTags(GitHubMetrics.MetricsOfPR(api, pr, owner, repo, denylist, tagsOwner, tagsRepo, now))
  {
    var lib := GitHubMetrics.MetricsOfPR(api, pr, owner, repo, denylist, tagsOwner, tagsRepo, now);
    if |lib| == 1 {
      assert AllWithoutTags(lib) == [WithoutTags(lib[0])];
    }
  }

  /** The body of the tool's PR loop once the reviews are fetched. */
  method BuildResult(pr: PullRequest, reviews: seq<Review>, denylist: seq<string>, now: int) returns (result: PRResult)
    ensures result == ResultOf(pr, reviews, denylist, now)
  {
    var firstTime, firstReviewer, firstState, approvalTime, approver, validFound :=
      GitHubMetrics.SummarizeReviews(reviews, pr.author, denylist);
    var timeToFirstReview := 0;
    if firstTime.Some? {
      timeToFirstReview := firstTime.value - pr.createdAt;
    }
    var timeToApproval := 0;
    if approvalTime.Some? {
      timeToApproval := approvalTime.value - pr.createdAt;
    }
    var timeSinceCreation := now - pr.createdAt;
    result := PRResult(pr.title, pr.number, pr.author, timeToFirstReview, firstReviewer,
                       firstState, timeToApproval, approver, validFound, timeSinceCreation);
  }

  /** `processPullRequests` of the tool. */
  method ProcessPullRequests(api: GitHubApi, prs: seq<PullRequest>, owner: string, repo: string, denylist: seq<string>,
                             now: int) returns (results: seq<PRResult>)
    ensures results == ProcessSpec(api, prs, owner, repo, denylist, now)
  {
    results := [];
    var i := 0;
    while i < |prs|
      invariant 0 <= i <= |prs|
      invariant results == ProcessSpec(api, prs[..i], owner, repo, denylist, now)
    {
      var pr := prs[i];
      assert prs[..i + 1][..i] == prs[..i];
      assert ProcessSpec(api, prs[..i + 1], owner, repo, denylist, now)
             == results + ResultsOfPR(api, pr, owner, repo, denylist, now);
      if pr.draft {
        i := i + 1;
        continue;
      }
      if pr.state == "closed" && pr.mergedAt.None? {
        i := i + 1;
        continue;
      }
      var prAuthorLogin := pr.author;
      if prAuthorLogin in denylist {
        i := i + 1;
        continue;
      }
      var reviews := api.fetchPullRequestReviews(owner, repo, pr.number);
      if reviews.Err? {
        i := i + 1;
        continue;
      }
      var result := BuildResult(pr, reviews.value, denylist, now);
      results := results + [result];
      i := i + 1;
    }
    assert prs[..|prs|] == prs;
  }

  // ---------------------------------------------------------------------
  // printSummaryStatistics.

  /** The first-review samples: reviewed PRs with a positive time to first review. */
  function FirstReviewSamples(results: seq<PRResult>): seq<int> {
    if |results| == 0 then []
    else
      var r := results[|results| - 1];
      FirstReviewSamples(results[..|results| - 1]) + (if r.hasReview && r.timeToFirstReview > 0 then [r.timeToFirstReview] else [])
  }

  /** The approval samples: reviewed PRs with a positive time to approval. */
  function ApprovalSamples(results: seq<PRResult>): seq<int> {
    if |results| == 0 then []
    else
      var r := results[|results| - 1];
      ApprovalSamples(results[..|results| - 1]) + (if r.hasReview && r.timeToApproval > 0 then [r.timeToApproval] else [])
  }

  /** The waiting samples: the time since creation of every unreviewed PR. */
  function WaitingSamples(results: seq<PRResult>): seq<int> {
    if |results| == 0 then []
    else
      var r := results[|results| - 1];
      WaitingSamples(results[..|results| - 1]) + (if !r.hasReview then [r.timeSinceCreation] else [])
  }

  function Unreviewed(results: seq<PRResult>): nat {
    if |results| == 0 then 0
    else Unreviewed(results[..|results| - 1]) + (if results[|results| - 1].hasReview then 0 else 1)
  }

  /** Which results feed which sample: the review and approval samples hold
      only positive durations of reviewed PRs, and every unreviewed PR adds
      its waiting time, whatever its sign. */
  lemma {:induction false} SamplesMembers(results: seq<PRResult>)
    ensures forall x :: x in FirstReviewSamples(results) <==>
              exists r :: r in results && r.hasReview && r.timeToFirstReview > 0 && r.timeToFirstReview == x
    ensures forall x :: x in ApprovalSamples(results) <==>
              exists r :: r in results && r.hasReview && r.timeToApproval > 0 && r.timeToApproval == x
    ensures forall x :: x in WaitingSamples(results) <==> exists r :: r in results && !r.hasReview && r.timeSinceCreation == x
    ensures |WaitingSamples(results)| == Unreviewed(results)
  {
    if |results| > 0 {
      SamplesMembers(results[..|results| - 1]);
      assert results == results[..|results| - 1] + [results[|results| - 1]];
    }
  }

  /** One more result adds at most one value to each sample. */
  lemma SamplesStep(results: seq<PRResult>, i: int)
    requires 0 <= i < |results|
    ensures var r := results[i];
            FirstReviewSamples(results[..i + 1]) == FirstReviewSamples(results[..i])
              + (if r.hasReview && r.timeToFirstReview > 0 then [r.timeToFirstReview] else [])
            && ApprovalSamples(results[..i + 1]) == ApprovalSamples(results[..i])
              + (if r.hasReview && r.timeToApproval > 0 then [r.timeToApproval] else [])
            && WaitingSamples(results[..i + 1]) == WaitingSamples(results[..i])
              + (if !r.hasReview then [r.timeSinceCreation] else [])
  {
    assert results[..i + 1][..i] == results[..i];
  }

  /** Adds `x` to a sample and its running total when `take` holds. */
  method AddSample(samples: seq<int>, total: int, take: bool, x: int) returns (samples': seq<int>, total': int)
    requires total == Sum(samples)
    ensures samples' == samples + (if take then [x] else []) && total' == Sum(samples')
  {
    samples', total' := samples, total;
    if take {
      SumAppend(samples, x);
      samples', total' := samples + [x], total + x;
    }
  }

  /** The sample loop of `printSummaryStatistics`, with the running totals. */
  method CollectSamples(results: seq<PRResult>)
    returns (firstReviewTimes: seq<int>, approvalTimes: seq<int>, waitingTimes: seq<int>,
             totalReviewTime: int, totalApprovalTime: int, totalWaitingTime: int)
    ensures firstReviewTimes == FirstReviewSamples(results) && totalReviewTime == Sum(firstReviewTimes)
    ensures approvalTimes == ApprovalSamples(results) && totalApprovalTime == Sum(approvalTimes)
    ensures waitingTimes == WaitingSamples(results) && totalWaitingTime == Sum(waitingTimes)
  {
    firstReviewTimes, approvalTimes, waitingTimes := [], [], [];
    totalReviewTime, totalApprovalTime, totalWaitingTime := 0, 0, 0;
    var i := 0;
    while i < |results|
      invariant 0 <= i <= |results|
      invariant firstReviewTimes == FirstReviewSamples(results[..i]) && totalReviewTime == Sum(firstReviewTimes)
      invariant approvalTimes == ApprovalSamples(results[..i]) && totalApprovalTime == Sum(approvalTimes)
      invariant waitingTimes == WaitingSamples(results[..i]) && totalWaitingTime == Sum(waitingTimes)
    {
      SamplesStep(results, i);
      var result := results[i];
      firstReviewTimes, totalReviewTime :=
        AddSample(firstReviewTimes, totalReviewTime, result.hasReview && result.timeToFirstReview > 0, result.timeToFirstReview);
      approvalTimes, totalApprovalTime :=
        AddSample(approvalTimes, totalApprovalTime, result.hasReview && result.timeToApproval > 0, result.timeToApproval);
      waitingTimes, totalWaitingTime := AddSample(waitingTimes, totalWaitingTime, !result.hasReview, result.timeSinceCreation);
      i := i + 1;
    }
    assert results[..|results|] == results;
  }

  /** The three blocks of `printSummaryStatistics`: time to first review,
      time to approval and waiting time, each shown only when its sample is
      not empty. */
  method SummaryStatistics(results: seq<PRResult>) returns (review: Option<Summary>, approval: Option<Summary>,
                                                           waiting: Option<Summary>)
    ensures SummaryOf(review, FirstReviewSamples(results))
    ensures SummaryOf(approval, ApprovalSamples(results))
    ensures SummaryOf(waiting, WaitingSamples(results))
  {
    var firstReviewTimes, approvalTimes, waitingTimes, totalReviewTime, totalApprovalTime, totalWaitingTime :=
      CollectSamples(results);
    review := Summarize(firstReviewTimes, totalReviewTime);
    approval := Summarize(approvalTimes, totalApprovalTime);
    waiting := Summarize(waitingTimes, totalWaitingTime);
  }

  /** A shown time to first review or to approval is positive: mean and
      median lie between the least and the greatest positive sample. */
  lemma ReviewSummaryPositive(results: seq<PRResult>, review: Option<Summary>, approval: Option<Summary>)
    requires SummaryOf(review, FirstReviewSamples(results))
    requires SummaryOf(approval, ApprovalSamples(results))
    ensures review.Some? ==> review.value.mean > 0 && review.value.median > 0
    ensures approval.Some? ==> approval.value.mean > 0 && approval.value.median > 0
  {
    SamplesMembers(results);
    var s := FirstReviewSamples(results);
    if |s| > 0 {
      assert forall i :: 0 <= i < |s| ==> s[i] in s;
      SummaryWithinSample(review, s, 1, Max(s));
    }
    var a := ApprovalSamples(results);
    if |a| > 0 {
      assert forall i :: 0 <= i < |a| ==> a[i] in a;
      SummaryWithinSample(approval, a, 1, Max(a));
    }
  }
}
