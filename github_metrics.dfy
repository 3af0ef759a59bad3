/** The review correlator of package `github`: which PRs are reported, the
    earliest review and the earliest approval of each, and the search of the
    tags repository for commits that refer to the PR. */
module GitHubMetrics {
  import opened Wrappers
  import opened Text
  import opened Times
  import opened Patterns
  import opened GitHubTypes

  // ---------------------------------------------------------------------
  // Which PRs are reported.

  /** A PR is looked at unless it is a draft, closed without being merged,
      or written by a deny-listed author. */
  predicate Eligible(pr: PullRequest, denylist: seq<string>) {
    !pr.draft && !(pr.state == "closed" && pr.mergedAt.None?) && pr.author !in denylist
  }

  // ---------------------------------------------------------------------
  // Review selection.

  /** Pending reviews, self-reviews and reviews by deny-listed users do not count. */
  predicate CountsAsReview(r: Review, author: string, denylist: seq<string>) {
    r.state != "PENDING" && r.user != author && r.user !in denylist
  }

  /** The reviews that count, in their original order. */
  function ValidReviews(rs: seq<Review>, author: string, denylist: seq<string>): seq<Review>
  {
    if |rs| == 0 then []
    else
      var init := rs[..|rs| - 1];
      var last := rs[|rs| - 1];
      assert rs == init + [last];
      ValidReviews(init, author, denylist) + (if CountsAsReview(last, author, denylist) then [last] else [])
  }

  /** The valid reviews are exactly the reviews that count. */
  lemma {:induction false} ValidReviewsMembers(rs: seq<Review>, author: string, denylist: seq<string>)
    ensures |ValidReviews(rs, author, denylist)| <= |rs|
    ensures forall r :: r in ValidReviews(rs, author, denylist) <==> r in rs && CountsAsReview(r, author, denylist)
  {
    if |rs| > 0 {
      ValidReviewsMembers(rs[..|rs| - 1], author, denylist);
      assert rs == rs[..|rs| - 1] + [rs[|rs| - 1]];
    }
  }

  /** The approvals among `rs`, in their original order. */
  function Approvals(rs: seq<Review>): seq<Review>
  {
    if |rs| == 0 then []
    else
      var init := rs[..|rs| - 1];
      var last := rs[|rs| - 1];
      assert rs == init + [last];
      Approvals(init) + (if last.state == "APPROVED" then [last] else [])
  }

  /** The approvals are exactly the reviews in state APPROVED. */
  lemma {:induction false} ApprovalsMembers(rs: seq<Review>)
    ensures |Approvals(rs)| <= |rs|
    ensures forall r :: r in Approvals(rs) <==> r in rs && r.state == "APPROVED"
  {
    if |rs| > 0 {
      ApprovalsMembers(rs[..|rs| - 1]);
      assert rs == rs[..|rs| - 1] + [rs[|rs| - 1]];
    }
  }

  /** The review selected by scanning `rs` in order and replacing the
      current one only by a strictly earlier review. */
  function Earliest(rs: seq<Review>): Option<Review>
  {
    if |rs| == 0 then None
    else
      var e := Earliest(rs[..|rs| - 1]);
      var x := rs[|rs| - 1];
      if e.None? || x.submittedAt < e.value.submittedAt then Some(x) else e
  }

  /** `rs[i]` is submitted no later than any review of `rs`, and strictly
      before every review ahead of it. */
  predicate IsFirstEarliest(rs: seq<Review>, i: int) {
    0 <= i < |rs|
    && (forall j :: 0 <= j < |rs| ==> rs[i].submittedAt <= rs[j].submittedAt)
    && (forall j :: 0 <= j < i ==> rs[i].submittedAt < rs[j].submittedAt)
  }

  /** The scan finds a review iff there is one, and what it finds is the
      earliest review, the first in input order among equally early ones. */
  lemma {:induction false} EarliestIsFirstMinimum(rs: seq<Review>)
    ensures Earliest(rs).None? <==> |rs| == 0
    ensures Earliest(rs).Some? ==> exists i :: IsFirstEarliest(rs, i) && rs[i] == Earliest(rs).value
  {
    if |rs| > 0 {
      var init := rs[..|rs| - 1];
      var x := rs[|rs| - 1];
      EarliestIsFirstMinimum(init);
      var e := Earliest(init);
      if e.None? {
        assert IsFirstEarliest(rs, 0);
      } else {
        var i :| IsFirstEarliest(init, i) && init[i] == e.value;
        if x.submittedAt < e.value.submittedAt {
          assert IsFirstEarliest(rs, |rs| - 1) by {
            forall j | 0 <= j < |rs| - 1
              ensures x.submittedAt < rs[j].submittedAt
            {
              assert rs[j] == init[j];
            }
          }
        } else {
          assert IsFirstEarliest(rs, i) by {
            forall j | 0 <= j < |rs|
              ensures rs[i].submittedAt <= rs[j].submittedAt
            {
              if j < |rs| - 1 {
                assert rs[j] == init[j];
              }
            }
            forall j | 0 <= j < i
              ensures rs[i].submittedAt < rs[j].submittedAt
            {
              assert rs[j] == init[j];
            }
          }
        }
      }
    }
  }

  /** There is one first-earliest position at most. */
  lemma FirstEarliestUnique(rs: seq<Review>, i: int, j: int)
    requires IsFirstEarliest(rs, i) && IsFirstEarliest(rs, j)
    ensures i == j
  {
    assert rs[i].submittedAt <= rs[j].submittedAt;
    assert rs[j].submittedAt <= rs[i].submittedAt;
  }

  function TimeOf(r: Option<Review>): Option<int> {
    if r.Some? then Some(r.value.submittedAt) else None
  }

  function UserOf(r: Option<Review>): string {
    if r.Some? then r.value.user else ""
  }

  function StateOf(r: Option<Review>): string {
    if r.Some? then r.value.state else ""
  }

  /** The review loop of `ProcessPullRequests`: the earliest counting review,
      the earliest counting approval, and whether any review counts. */
  method SummarizeReviews(reviews: seq<Review>, author: string, denylist: seq<string>)
    returns (firstTime: Option<int>, firstReviewer: string, firstState: string,
             approvalTime: Option<int>, approver: string, validFound: bool)
    ensures var v := ValidReviews(reviews, author, denylist);
            validFound == (|v| > 0)
            && firstTime == TimeOf(Earliest(v)) && firstReviewer == UserOf(Earliest(v))
            && firstState == StateOf(Earliest(v))
            && approvalTime == TimeOf(Earliest(Approvals(v))) && approver == UserOf(Earliest(Approvals(v)))
  {
    firstTime, firstReviewer, firstState := None, "", "";
    approvalTime, approver := None, "";
    validFound := false;
    var i := 0;
    while i < |reviews|
      invariant 0 <= i <= |reviews|
      invariant var v := ValidReviews(reviews[..i], author, denylist);
                validFound == (|v| > 0)
                && firstTime == TimeOf(Earliest(v)) && firstReviewer == UserOf(Earliest(v))
                && firstState == StateOf(Earliest(v))
                && approvalTime == TimeOf(Earliest(Approvals(v))) && approver == UserOf(Earliest(Approvals(v)))
    {
      var review := reviews[i];
      assert reviews[..i + 1][..i] == reviews[..i];
      ghost var v := ValidReviews(reviews[..i], author, denylist);
      assert reviews[..i + 1][i] == review;
      if review.state == "PENDING" || review.user == author {
        assert ValidReviews(reviews[..i + 1], author, denylist) == v;
      } else if review.user in denylist {
        assert ValidReviews(reviews[..i + 1], author, denylist) == v;
      } else {
        assert ValidReviews(reviews[..i + 1], author, denylist) == v + [review];
        assert Approvals(v + [review]) == Approvals(v) + (if review.state == "APPROVED" then [review] else []) by {
          assert (v + [review])[..|v|] == v;
        }
        assert (v + [review])[..|v|] == v;
        assert Earliest(v + [review])
               == if Earliest(v).None? || review.submittedAt < Earliest(v).value.submittedAt then Some(review) else Earliest(v);
        validFound := true;
        if firstTime.None? || review.submittedAt < firstTime.value {
          firstTime := Some(review.submittedAt);
          firstReviewer := review.user;
          firstState := review.state;
        }
        if review.state == "APPROVED" {
          ghost var a := Approvals(v);
          assert Approvals(v + [review]) == a + [review];
          assert (a + [review])[..|a|] == a;
          assert Earliest(a + [review])
                 == if Earliest(a).None? || review.submittedAt < Earliest(a).value.submittedAt then Some(review) else Earliest(a);
          if approvalTime.None? || review.submittedAt < approvalTime.value {
            approvalTime := Some(review.submittedAt);
            approver := review.user;
          }
        } else {
          assert Approvals(v + [review]) == Approvals(v);
        }
      }
      i := i + 1;
    }
    assert reviews[..|reviews|] == reviews;
  }

  // ---------------------------------------------------------------------
  // The tags-repository search.

  /** The end of the commit search window: now for a PR that is not closed;
      for a closed one its merge time, else its close time, else 30 days
      after its creation. */
  function SearchWindowEnd(pr: PullRequest, now: int): int {
    if pr.state != "closed" then now
    else if pr.mergedAt.Some? then pr.mergedAt.value
    else if pr.closedAt.Some? then pr.closedAt.value
    else pr.createdAt + 30 * Day
  }

  function TagCommitOf(c: RepositoryCommit): TagCommit {
    TagCommit(c.sha, c.message, c.authorDate, c.authorName)
  }

  /** An added line that holds the PR reference, or the branch reference when
      the PR has a branch name. */
  predicate LineRefers(line: string, prNumber: int, branch: string) {
    StartsWith(line, "+") && (MatchesPR(line, prNumber) || (branch != "" && MatchesBranch(line, branch)))
  }

  predicate FileRefers(f: CommitFile, prNumber: int, branch: string) {
    f.patch.Some? && exists k :: 0 <= k < |Lines(f.patch.value)| && LineRefers(Lines(f.patch.value)[k], prNumber, branch)
  }

  predicate DiffRefers(files: seq<CommitFile>, prNumber: int, branch: string) {
    exists i :: 0 <= i < |files| && FileRefers(files[i], prNumber, branch)
  }

  /** The test applied to one line of a patch: an added line, then the PR
      pattern, then (for a PR with a branch name) the branch pattern. */
  method LineHit(line: string, prNumber: int, branch: string) returns (hit: bool)
    ensures hit == LineRefers(line, prNumber, branch)
  {
    hit := false;
    if StartsWith(line, "+") {
      if MatchesPR(line, prNumber) {
        hit := true;
      } else if branch != "" {
        hit := MatchesBranch(line, branch);
      }
    }
  }

  /** The line loop over one patch: whether some added line refers to the PR. */
  method PatchHit(patch: string, prNumber: int, branch: string) returns (hit: bool)
    ensures hit <==> exists k :: 0 <= k < |Lines(patch)| && LineRefers(Lines(patch)[k], prNumber, branch)
  {
    var lines := Lines(patch);
    var k := 0;
    while k < |lines|
      invariant 0 <= k <= |lines|
      invariant forall k' :: 0 <= k' < k ==> !LineRefers(lines[k'], prNumber, branch)
    {
      hit := LineHit(lines[k], prNumber, branch);
      if hit {
        return;
      }
      k := k + 1;
    }
    return false;
  }

  /** `analyzeCommitDiffForPRReference`: scans the patches file by file and
      reports the commit at the first file with an added line that refers
      to the PR. */
  method AnalyzeCommitDiff(commit: RepositoryCommit, prNumber: int, branch: string) returns (r: Option<TagCommit>)
    ensures r.Some? <==> DiffRefers(commit.files, prNumber, branch)
    ensures r.Some? ==> r.value == TagCommitOf(commit)
  {
    var files := commit.files;
    if |files| == 0 {
      return None;
    }
    var i := 0;
    while i < |files|
      invariant 0 <= i <= |files|
      invariant forall i' :: 0 <= i' < i ==> !FileRefers(files[i'], prNumber, branch)
    {
      if files[i].patch.Some? {
        var hit := PatchHit(files[i].patch.value, prNumber, branch);
        if hit {
          return Some(TagCommitOf(commit));
        }
      }
      i := i + 1;
    }
    return None;
  }

  /** The tag commits found among `commits`: each is fetched in full (a
      failed fetch skips it) and kept when its diff refers to the PR. */
  function CollectTags(api: GitHubApi, owner: string, repo: string, commits: seq<RepositoryCommit>,
                       prNumber: int, branch: string): seq<TagCommit>
  {
    if |commits| == 0 then []
    else
      CollectTags(api, owner, repo, commits[..|commits| - 1], prNumber, branch)
      + FoundAt(api, owner, repo, commits[|commits| - 1].sha, prNumber, branch)
  }

  /** What one listed commit contributes: nothing when its full fetch fails
      or its diff does not refer to the PR. */
  function FoundAt(api: GitHubApi, owner: string, repo: string, sha: string, prNumber: int, branch: string): seq<TagCommit> {
    match api.fetchCommit(owner, repo, sha)
    case Err(_) => []
    case Ok(c) => if DiffRefers(c.files, prNumber, branch) then [TagCommitOf(c)] else []
  }

  /** `checkPRTagCommits` on the tags repository `owner/repo`. */
  function TagCommits(api: GitHubApi, pr: PullRequest, owner: string, repo: string, now: int): seq<TagCommit> {
    match api.fetchCommits(owner, repo, pr.createdAt, SearchWindowEnd(pr, now))
    case Err(_) => []
    case Ok(commits) => CollectTags(api, owner, repo, commits, pr.number, pr.headRef)
  }

  /** Every tag commit found is a listed commit whose fetched diff refers to
      the PR, reported with the fetched commit's own fields; there are no
      more of them than listed commits. */
  lemma {:induction false} CollectTagsSound(api: GitHubApi, owner: string, repo: string, commits: seq<RepositoryCommit>,
                                           prNumber: int, branch: string)
    ensures |CollectTags(api, owner, repo, commits, prNumber, branch)| <= |commits|
    ensures forall t :: t in CollectTags(api, owner, repo, commits, prNumber, branch) ==>
              exists i, c :: 0 <= i < |commits| && api.fetchCommit(owner, repo, commits[i].sha) == Ok(c)
                && DiffRefers(c.files, prNumber, branch) && t == TagCommitOf(c)
  {
    if |commits| > 0 {
      var init := commits[..|commits| - 1];
      CollectTagsSound(api, owner, repo, init, prNumber, branch);
      forall t | t in CollectTags(api, owner, repo, commits, prNumber, branch)
        ensures exists i, c :: 0 <= i < |commits| && api.fetchCommit(owner, repo, commits[i].sha) == Ok(c)
                  && DiffRefers(c.files, prNumber, branch) && t == TagCommitOf(c)
      {
        if t in CollectTags(api, owner, repo, init, prNumber, branch) {
          var i, c :| 0 <= i < |init| && api.fetchCommit(owner, repo, init[i].sha) == Ok(c)
                  && DiffRefers(c.files, prNumber, branch) && t == TagCommitOf(c);
          assert commits[i] == init[i];
        } else {
          var c := api.fetchCommit(owner, repo, commits[|commits| - 1].sha).value;
          assert DiffRefers(c.files, prNumber, branch) && t == TagCommitOf(c);
        }
      }
    }
  }

  /** A listed commit whose fetched diff refers to the PR is kept, in place:
      the tags of a longer list extend those of its prefix by this one. */
  lemma CollectTagsKeepsMatches(api: GitHubApi, owner: string, repo: string, commits: seq<RepositoryCommit>,
                                c: RepositoryCommit, full: RepositoryCommit, prNumber: int, branch: string)
    requires api.fetchCommit(owner, repo, c.sha) == Ok(full) && DiffRefers(full.files, prNumber, branch)
    ensures CollectTags(api, owner, repo, commits + [c], prNumber, branch)
            == CollectTags(api, owner, repo, commits, prNumber, branch) + [TagCommitOf(full)]
  {
    assert (commits + [c])[..|commits|] == commits;
  }

  method CheckPRTagCommits(api: GitHubApi, pr: PullRequest, owner: string, repo: string, now: int)
    returns (tags: seq<TagCommit>)
    ensures tags == TagCommits(api, pr, owner, repo, now)
  {
    var commits := api.fetchCommits(owner, repo, pr.createdAt, SearchWindowEnd(pr, now));
    if commits.Err? {
      return [];
    }
    var list := commits.value;
    tags := [];
    var i := 0;
    while i < |list|
      invariant 0 <= i <= |list|
      invariant tags == CollectTags(api, owner, repo, list[..i], pr.number, pr.headRef)
    {
      assert list[..i + 1][..i] == list[..i];
      assert CollectTags(api, owner, repo, list[..i + 1], pr.number, pr.headRef)
             == tags + FoundAt(api, owner, repo, list[i].sha, pr.number, pr.headRef);
      var full := api.fetchCommit(owner, repo, list[i].sha);
      if full.Ok? {
        var tag := AnalyzeCommitDiff(full.value, pr.number, pr.headRef);
        if tag.Some? {
          tags := tags + [tag.value];
        }
      }
      i := i + 1;
    }
    assert list[..|list|] == list;
  }

  // ---------------------------------------------------------------------
  // The per-PR metric and the whole run.

  /** The metric of an eligible PR whose reviews are `reviews`. */
  function MetricOf(pr: PullRequest, reviews: seq<Review>, denylist: seq<string>, now: int,
                    tags: seq<TagCommit>): PullRequestMetric
  {
    var v := ValidReviews(reviews, pr.author, denylist);
    var first := Earliest(v);
    var approval := Earliest(Approvals(v));
    PullRequestMetric(
      pr.title, pr.number, pr.author,
      if first.Some? then first.value.submittedAt - pr.createdAt else 0,
      UserOf(first), StateOf(first),
      if approval.Some? then approval.value.submittedAt - pr.createdAt else 0,
      UserOf(approval),
      |v| > 0,
      now - pr.createdAt,
      tags)
  }

  /** What the review fields of a metric mean. */
  lemma MetricReviewFields(pr: PullRequest, reviews: seq<Review>, denylist: seq<string>, now: int, tags: seq<TagCommit>)
    ensures var m := MetricOf(pr, reviews, denylist, now, tags);
            var v := ValidReviews(reviews, pr.author, denylist);
            (m.hasReview <==> exists r :: r in reviews && CountsAsReview(r, pr.author, denylist))
            && (m.hasReview ==>
                  exists i :: (IsFirstEarliest(v, i) && m.firstReviewer == v[i].user
                    && m.firstReviewState == v[i].state && m.timeToFirstReview == v[i].submittedAt - pr.createdAt))
            && (!m.hasReview ==>
                  (m.timeToFirstReview == 0 && m.firstReviewer == "" && m.firstReviewState == ""
                    && m.timeToApproval == 0 && m.approver == ""))
            && m.timeSinceCreation == now - pr.createdAt
  {
    var v := ValidReviews(reviews, pr.author, denylist);
    ValidReviewsMembers(reviews, pr.author, denylist);
    ApprovalsMembers(v);
    EarliestIsFirstMinimum(v);
    EarliestIsFirstMinimum(Approvals(v));
    if |v| > 0 {
      assert v[0] in v;
    }
  }

  /** The approval fields: the earliest counting approval, picked on its own,
      or nothing when no counting review approves. */
  lemma MetricApprovalFields(pr: PullRequest, reviews: seq<Review>, denylist: seq<string>, now: int, tags: seq<TagCommit>)
    ensures var m := MetricOf(pr, reviews, denylist, now, tags);
            var a := Approvals(ValidReviews(reviews, pr.author, denylist));
            (|a| > 0 <==> exists r :: r in reviews && CountsAsReview(r, pr.author, denylist) && r.state == "APPROVED")
            && (|a| > 0 ==>
                  exists i :: (IsFirstEarliest(a, i) && m.approver == a[i].user
                    && m.timeToApproval == a[i].submittedAt - pr.createdAt))
            && (|a| == 0 ==> m.approver == "" && m.timeToApproval == 0)
  {
    var v := ValidReviews(reviews, pr.author, denylist);
    var a := Approvals(v);
    ValidReviewsMembers(reviews, pr.author, denylist);
    ApprovalsMembers(v);
    EarliestIsFirstMinimum(a);
    if |a| > 0 {
      assert a[0] in a;
    }
  }

  /** The result a PR contributes: none, or one metric. */
  function MetricsOfPR(api: GitHubApi, pr: PullRequest, owner: string, repo: string, denylist: seq<string>,
                       tagsOwner: string, tagsRepo: string, now: int): seq<PullRequestMetric>
  {
    if !Eligible(pr, denylist) then []
    else match api.fetchPullRequestReviews(owner, repo, pr.number)
      case Err(_) => []
      case Ok(reviews) =>
        [MetricOf(pr, reviews, denylist, now, TagsFor(api, pr, tagsOwner, tagsRepo, now))]
  }

  /** The tags repository is searched only when both of its names are given. */
  function TagsFor(api: GitHubApi, pr: PullRequest, tagsOwner: string, tagsRepo: string, now: int): seq<TagCommit> {
    if tagsOwner != "" && tagsRepo != "" then TagCommits(api, pr, tagsOwner, tagsRepo, now) else []
  }

  function ProcessSpec(api: GitHubApi, prs: seq<PullRequest>, owner: string, repo: string, denylist: seq<string>,
                       tagsOwner: string, tagsRepo: string, now: int): seq<PullRequestMetric>
  {
    if |prs| == 0 then []
    else ProcessSpec(api, prs[..|prs| - 1], owner, repo, denylist, tagsOwner, tagsRepo, now)
         + MetricsOfPR(api, prs[|prs| - 1], owner, repo, denylist, tagsOwner, tagsRepo, now)
  }

  /** The PRs that are reported: eligible ones whose reviews could be fetched. */
  predicate Reported(api: GitHubApi, pr: PullRequest, owner: string, repo: string, denylist: seq<string>) {
    Eligible(pr, denylist) && api.fetchPullRequestReviews(owner, repo, pr.number).Ok?
  }

  function ReportedPRs(api: GitHubApi, prs: seq<PullRequest>, owner: string, repo: string, denylist: seq<string>): seq<PullRequest>
  {
    if |prs| == 0 then []
    else
      var init := prs[..|prs| - 1];
      var last := prs[|prs| - 1];
      assert prs == init + [last];
      ReportedPRs(api, init, owner, repo, denylist) + (if Reported(api, last, owner, repo, denylist) then [last] else [])
  }

  /** The reported PRs are exactly the input PRs that are eligible and whose
      reviews could be fetched. */
  lemma {:induction false} ReportedPRsMembers(api: GitHubApi, prs: seq<PullRequest>, owner: string, repo: string, denylist: seq<string>)
    ensures |ReportedPRs(api, prs, owner, repo, denylist)| <= |prs|
    ensures forall pr :: pr in ReportedPRs(api, prs, owner, repo, denylist) <==> pr in prs && Reported(api, pr, owner, repo, denylist)
  {
    if |prs| > 0 {
      ReportedPRsMembers(api, prs[..|prs| - 1], owner, repo, denylist);
      assert prs == prs[..|prs| - 1] + [prs[|prs| - 1]];
    }
  }

  /** One metric per reported PR, in input order, and each is the metric of
      that PR's fetched reviews. */
  lemma {:induction false} ProcessReportsEachReportedPR(api: GitHubApi, prs: seq<PullRequest>, owner: string, repo: string,
                                                        denylist: seq<string>, tagsOwner: string, tagsRepo: string, now: int)
    ensures var out := ProcessSpec(api, prs, owner, repo, denylist, tagsOwner, tagsRepo, now);
            var k := ReportedPRs(api, prs, owner, repo, denylist);
            |out| == |k|
            && forall i :: 0 <= i < |k| ==>
                 Reported(api, k[i], owner, repo, denylist)
                 && out[i] == MetricOf(k[i], api.fetchPullRequestReviews(owner, repo, k[i].number).value, denylist, now,
                                    TagsFor(api, k[i], tagsOwner, tagsRepo, now))
  {
    if |prs| > 0 {
      ProcessReportsEachReportedPR(api, prs[..|prs| - 1], owner, repo, denylist, tagsOwner, tagsRepo, now);
    }
  }

  /** The body of the PR loop once the reviews are fetched: the review
      summary, the durations and the optional tag search. */
  method BuildMetric(api: GitHubApi, pr: PullRequest, reviews: seq<Review>, denylist: seq<string>,
                     tagsOwner: string, tagsRepo: string, now: int) returns (metric: PullRequestMetric)
    ensures metric == MetricOf(pr, reviews, denylist, now, TagsFor(api, pr, tagsOwner, tagsRepo, now))
  {
    var firstTime, firstReviewer, firstState, approvalTime, approver, validFound :=
      SummarizeReviews(reviews, pr.author, denylist);
    var timeToFirstReview := 0;
    if firstTime.Some? {
      timeToFirstReview := firstTime.value - pr.createdAt;
    }
    var timeToApproval := 0;
    if approvalTime.Some? {
      timeToApproval := approvalTime.value - pr.createdAt;
    }
    var timeSinceCreation := now - pr.createdAt;
    var tags := [];
    if tagsOwner != "" && tagsRepo != "" {
      tags := CheckPRTagCommits(api, pr, tagsOwner, tagsRepo, now);
    }
    metric := PullRequestMetric(pr.title, pr.number, pr.author, timeToFirstReview,
                                    firstReviewer, firstState, timeToApproval, approver,
                                    validFound, timeSinceCreation, tags);
  }

  /** `ProcessPullRequests`. */
  method ProcessPullRequests(api: GitHubApi, prs: seq<PullRequest>, owner: string, repo: string, denylist: seq<string>,
                             tagsOwner: string, tagsRepo: string, now: int)
    returns (results: seq<PullRequestMetric>)
    ensures results == ProcessSpec(api, prs, owner, repo, denylist, tagsOwner, tagsRepo, now)
  {
    results := [];
    var i := 0;
    while i < |prs|
      invariant 0 <= i <= |prs|
      invariant results == ProcessSpec(api, prs[..i], owner, repo, denylist, tagsOwner, tagsRepo, now)
    {
      var pr := prs[i];
      assert prs[..i + 1][..i] == prs[..i];
      assert ProcessSpec(api, prs[..i + 1], owner, repo, denylist, tagsOwner, tagsRepo, now)
             == results + MetricsOfPR(api, pr, owner, repo, denylist, tagsOwner, tagsRepo, now);
      if pr.draft || (pr.state == "closed" && pr.mergedAt.None?) || pr.author in denylist {
        i := i + 1;
        continue;
      }
      var fetched := api.fetchPullRequestReviews(owner, repo, pr.number);
      if fetched.Err? {
        i := i + 1;
        continue;
      }
      var metric := BuildMetric(api, pr, fetched.value, denylist, tagsOwner, tagsRepo, now);
      results := results + [metric];
      i := i + 1;
    }
    assert prs[..|prs|] == prs;
  }
}
