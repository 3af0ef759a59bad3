# statstracker in Dafny

This project models statstracker's engineering-metrics layer. Statstracker measures three things:

- How fast GitHub pull requests get reviewed and approved.
- How long a commit takes to reach the test environment through Google Cloud Deploy.
- Which tests CircleCI reports as flaky.

What is modelled is the part of the system that correlates, caches and aggregates:

- **The cache.** This covers the key builder, the expiry rule of an entry, and the file-backed cache with lazy expiry. The cache is a `FileCache` class whose `disk` field is the state that `Get`, `Set` and `Delete` change.
- **The three read-through clients.** These are the GitHub, Cloud Deploy and CircleCI clients that sit in front of that cache. Each one is a class whose methods change the cache's disk exactly as a specification function of the old disk says.
- **The review correlator.** It decides which PRs are reported, finds the earliest counting review and the earliest counting approval, and searches the tags repository for commits that refer to a PR.
- **The deploy client's parsing.** This covers the pipeline filter, the release filter, the SHA annotation and the scan of a tags-repository diff for the application commit.
- **The deployment correlator.** It produces one latency metric per release and groups those metrics by PR.
- **The flaky-test conversion and its sort.**
- **The summary arithmetic of the three commands** `pr-tracker`, `deploy-tracker` and `flaky-tests`:
  - the sample filters;
  - the truncated integer means;
  - `calculateMedian`, which sorts in place;
  - the per-PR deployment counters;
  - the flaky-test total, mean, median, most and least.

Time is an integer count of nanoseconds since the Unix epoch, read in UTC. Every clock reading is an explicit `now` parameter.

The network services are modelled as datatypes of function-typed fields. These are deterministic tables that may answer with an error: GitHub, Cloud Deploy, CircleCI, and the wrapped deploy client.

The file system is modelled as a `Disk` value. It holds:

- the files, each either stored text or unreadable;
- the directories that cannot be created;
- the files that cannot be written or removed.

Which I/O call fails is therefore decided by the environment.

JSON payloads go through an abstract `Codec` (an encode/decode pair). `Lawful` states that decode reads back everything that encode writes. The entry envelope (creation time, optional expiry, data) has a concrete text encoding with a proved round trip. The SHA-256 file naming is an opaque digest function into 64-character strings, followed by the two-level sharded layout `base/dd/rest.json`.

The four regular expressions are written out as recognisers, and `Patterns` explains why RE2's leftmost-first match is the greedy reading at the first start position that succeeds. The Go sorts (`sort.Slice`, `slices.Sort`, `slices.SortFunc`) are insertion sort on an array. Insertion sort is one of the orders the unstable Go sorts may produce. Its contract states only what all those orders share: the result is sorted by the key and is a permutation of the input.

Where the source files disagree with one another, the model follows the code:

- `internal/deploy/client.go` is out of step with its callers. Its `ExtractCommitSHAFromRelease` returns a SHA and a time, but `internal/deploy/metrics.go` and `internal/deploy/cached_client.go` expect a SHA, a PR number and a time.
  - The model keeps the file's parsing as written (`DeployClient.ExtractSpec`).
  - The callers are given the abstract interfaces they expect: `DeployModels.ReleaseSource` for `ProcessDeployments`, and `DeployCachedClient.WrappedClient` for the cached client.
- `GetReleaseFinishTime` is defined in no source file, so it is a field of those interfaces.
- The CircleCI cached client's `Close` closes only the wrapped client, while the deploy cached client's `Close` closes both.

## Model

| member | source | states |
|---|---|---|
| Cache.ExpiryAtDeadline | internal/cache/cache.go:38-43 | an entry without an expiry time is never expired; one with an expiry time is expired exactly when `now` is strictly after it, so it is still live at the deadline itself and expired one nanosecond later |
| Cache.ToString | internal/cache/cache.go:94-103 | a string part is kept unchanged; an int part is rendered in decimal that parses back to the same int |
| Cache.KeyIsPrefixThenFields | internal/cache/cache.go:86-92 | a key is the builder's prefix followed by ":" and the rendering of each part, in argument order |
| Cache.FieldsAppend | internal/cache/cache.go:88-90 | appending one part to the argument list appends ":" and that part's rendering to the key |
| Cache.BuildKey | internal/cache/cache.go:86-92 | the loop that builds the key yields the prefix followed by ":" and each rendered part, in order |
| Cache.KeyStartsWithLiteral | internal/cache/cache.go:54-84 | every resource key starts with the prefix, ":" and the resource-type literal |
| Cache.PRKeyNeverReviewsKey | internal/cache/cache.go:54-60 | a PR key and a review-list key are never equal, whatever their arguments |
| Cache.PRKeyNeverListKey | internal/cache/cache.go:54-66 | a single-PR key and a PR-list key are never equal, whatever their arguments |
| Cache.ReleaseKeyNeverRolloutsKey | internal/cache/cache.go:68-74 | a release key and a rollouts key are never equal, whatever their arguments |
| Cache.PRKeyInjective | internal/cache/cache.go:54-60 | two PRs of one repository with different numbers get different PR keys and different review keys |
| Cache.ListKeysDependOnlyOnDays | internal/cache/cache.go:62-80 | PR-list and release-list keys depend only on the calendar days of their two dates: times on the same days give the same key |
| Times.FormatDateExample | internal/cache/cache.go:64 | the `2006-01-02` layout renders 2024-01-15T14:00:00Z as "2024-01-15" |
| Text.ParseIntOfDecimal | internal/cache/cache.go:97-98 | the decimal rendering of an int parses back to that int, so no information is lost |
| Text.DecimalInjective | internal/cache/cache.go:97-98 | different ints have different decimal renderings |
| FileCache.ShardedPathInjective | internal/cache/file_cache.go:131-141 | under one base directory, different digests name different files |
| FileCache.EntryRoundTrip | internal/cache/file_cache.go:55-56 | an entry envelope is decoded back to exactly the entry that was encoded, whatever its data text holds |
| FileCache.NewEntry | internal/cache/file_cache.go:82-91 | the written entry holds the encoded data and the creation time, and has an expiry time exactly when the TTL is positive: now plus the TTL |
| FileCache.GetAbsentIsMiss | internal/cache/file_cache.go:46-50 | a `Get` whose file does not exist returns the cache-miss error and changes nothing |
| FileCache.OperationsAreLocal | internal/cache/file_cache.go:100-141 | `Get`, `Set` and `Delete` of a key change at most the file of that key; every other file and the environment stay the same |
| FileCache.SetThenGet | internal/cache/file_cache.go:43-113 | after a successful `Set`, a `Get` before the expiry time (at any time when the TTL is not positive) returns the stored value and changes nothing |
| FileCache.HitDependsOnFileOnly | internal/cache/file_cache.go:43-72 | whether `Get` hits, and with what value, depends only on the key's file; a hit changes nothing |
| FileCache.NonPositiveTtlNeverExpires | internal/cache/file_cache.go:88-91 | a `Set` with a TTL of zero or less stores no expiry time, so the entry is never expired |
| FileCache.ExpiredGetDeletes | internal/cache/file_cache.go:59-64 | a `Get` of an expired entry returns a miss and removes the file unless it cannot be removed; later gets miss as well |
| FileCache.DeleteIdempotent | internal/cache/file_cache.go:116-123 | deleting an absent file succeeds and changes nothing; after a successful delete the file is gone and a second delete changes nothing |
| FileCache.SetOverwrites | internal/cache/file_cache.go:108-110 | a second successful `Set` on a key replaces the first value |
| FileCache.UndecodableEntryIsNotMiss | internal/cache/file_cache.go:53-57 | an envelope that cannot be decoded yields an error other than a miss, and the file stays |
| FileCache.FileCache.Get | internal/cache/file_cache.go:43-72 | the result and the new disk are `GetSpec` of the old disk: miss, read error, undecodable envelope, expired (the file is deleted and the deletion's error dropped), undecodable data, or the value |
| FileCache.FileCache.Set | internal/cache/file_cache.go:75-113 | the result and the new disk are `SetSpec`: fails if the shard directory cannot be created or the file cannot be written, otherwise stores the envelope |
| FileCache.FileCache.Delete | internal/cache/file_cache.go:116-123 | the result and the new disk are `DeleteSpec`: an absent file is not an error, a file that cannot be removed is one |
| FileCache.FileCache.Close | internal/cache/file_cache.go:126-128 | closing always succeeds |
| Patterns.HexCapture | internal/github/metrics.go:189-194 | a `[a-f0-9]{7,40}` capture is 7 to 40 lowercase hex characters, read from the line at that position |
| Patterns.FirstMatchIsLeftmost | internal/deploy/client.go:196-197 | the search finds nothing exactly when no position matches; otherwise it finds the match at the leftmost matching position |
| Patterns.MatchesPRAnywhere | internal/github/metrics.go:189 | the PR pattern matches a line exactly when it matches at some position of the line |
| Patterns.MatchesBranchAnywhere | internal/github/metrics.go:192-195 | the branch pattern matches a line exactly when it matches at some position of the line |
| Patterns.PRRefDeterminesNumber | internal/github/metrics.go:189 | at one position the PR pattern holds for at most one PR number, ended by the first '_' after `pull-` |
| Patterns.PullShaIsLeftmostHex | internal/deploy/client.go:196 | the PR-number SHA pattern yields the capture of its leftmost match: 7 to 40 lowercase hex characters of the line, or nothing when no position matches |
| Patterns.BranchShaIsLeftmostHex | internal/deploy/client.go:197 | the same for the timestamped-branch SHA pattern |
| Patterns.PRLineExample | internal/github/metrics_test.go:393 | the line `+app2: pull-123_abc123def456` refers to PR 123 and does not refer to PR 999 |
| Patterns.BranchLineExample | internal/github/metrics_test.go:428-431 | the line `+app2: 2024_01_15__14_30_45__feature-branch__abc123def456` refers to branch `feature-branch` and does not refer to branch `main` |
| GitHubMetrics.ValidReviewsMembers | internal/github/metrics.go:57-64 | the valid reviews are exactly the reviews that are not pending, not by the PR's author and not by a deny-listed user |
| GitHubMetrics.ApprovalsMembers | internal/github/metrics.go:74-79 | the approvals are exactly the reviews in state APPROVED |
| GitHubMetrics.EarliestIsFirstMinimum | internal/github/metrics.go:67-71 | the scan finds a review exactly when there is one; it is submitted no later than any other, and it is the first in input order among those equally early (strict `Before` replacement) |
| GitHubMetrics.FirstEarliestUnique | internal/github/metrics.go:67-71 | there is at most one first-earliest review, so the choice is determined |
| GitHubMetrics.SummarizeReviews | internal/github/metrics.go:51-80 | the review loop reports whether a valid review exists, plus the time, user and state of the earliest valid review and the time and user of the earliest valid approval, each picked independently |
| GitHubMetrics.MetricReviewFields | internal/github/metrics.go:51-95 | `hasReview` holds exactly when a review counts; the first-review fields belong to the first-earliest counting review, with time to first review equal to its time minus the PR's creation; all are zero/empty without one |
| GitHubMetrics.MetricApprovalFields | internal/github/metrics.go:74-92 | an approver exists exactly when a counting review approves; the approver is the first-earliest counting approval, with time to approval equal to its time minus creation; otherwise zero/empty |
| GitHubMetrics.LineHit | internal/github/metrics.go:205-228 | a line hits exactly when it starts with `+` and holds the PR reference, or the branch reference when the PR has a branch name |
| GitHubMetrics.PatchHit | internal/github/metrics.go:198-229 | a patch hits exactly when one of its lines refers to the PR |
| GitHubMetrics.AnalyzeCommitDiff | internal/github/metrics.go:181-233 | a tag commit is returned exactly when some file's patch has a referring added line (never for a commit without files, never from a missing patch); it carries the tags commit's own SHA, message, author and date |
| GitHubMetrics.CollectTagsSound | internal/github/metrics.go:159-171 | every tag commit found comes from a listed commit whose full fetch succeeded and whose diff refers to the PR; there are no more than the listed commits |
| GitHubMetrics.CollectTagsKeepsMatches | internal/github/metrics.go:159-171 | a listed commit whose fetched diff refers to the PR is kept, after those found before it |
| GitHubMetrics.CheckPRTagCommits | internal/github/metrics.go:127-174 | the result is `TagCommits`: nothing if the listing fails; otherwise the referring commits of the window that ends at now (open PR) or at the merge time, else close time, else creation plus 30 days (closed PR) |
| GitHubMetrics.BuildMetric | internal/github/metrics.go:51-116 | the metric built for an eligible PR is `MetricOf` its reviews with the tags found when a tags repository is named |
| GitHubMetrics.ReportedPRsMembers | internal/github/metrics.go:20-39 | the reported PRs are exactly the input PRs that are not drafts, not closed without a merge, not by a deny-listed author, and whose reviews could be fetched |
| GitHubMetrics.ProcessReportsEachReportedPR | internal/github/metrics.go:15-120 | there is one metric per reported PR, in input order, and each is the metric of that PR's fetched reviews |
| GitHubMetrics.ProcessPullRequests | internal/github/metrics.go:15-120 | the loop returns `ProcessSpec`, whose meaning the two lemmas above state |
| GitHubCachedClient.PRListTTL | internal/github/cached_client.go:109-119 | the PR-list TTL is a day exactly when the window ended more than seven days before now, and an hour otherwise |
| GitHubCachedClient.CachedGitHubClient.FetchPullRequests | internal/github/cached_client.go:28-61 | the result and the new disk are `FetchPRsSpec`: cache lookup, then the API, then the list written with its TTL and each closed PR written for a day |
| GitHubCachedClient.CachedGitHubClient.FetchPullRequestReviews | internal/github/cached_client.go:64-96 | the result and the new disk are `FetchReviewsSpec`: cache lookup, then the API, then the list written with `ReviewsTTL` |
| GitHubCachedClient.CachedGitHubClient.Close | internal/github/cached_client.go:122-124 | closing returns what closing the cache returns: success |
| GitHubCachedClient.FetchPRsAnswer | internal/github/cached_client.go:30-48 | a hit returns the cached list and changes nothing; any other lookup outcome, errors included, returns the API's answer; an API error writes nothing |
| GitHubCachedClient.FetchReviewsAnswer | internal/github/cached_client.go:66-78 | the same for review lists |
| GitHubCachedClient.CachePRsKeepsOthers | internal/github/cached_client.go:51-58 | the per-PR writes leave every file that no closed PR of the list is written to as it was |
| GitHubCachedClient.CachePRsAppend | internal/github/cached_client.go:51-58 | the per-PR loop over a list is the loop over its first part followed by the loop over the rest |
| GitHubCachedClient.CachedPRReadable | internal/github/cached_client.go:51-58 | a closed PR of the fetched list whose write succeeded reads back under its PR key within a day, unless a later closed PR of the list is written to the same file |
| GitHubCachedClient.FetchPRsThenHit | internal/github/cached_client.go:28-61 | a list fetched and written successfully is what the next call with the same arguments returns within the list's TTL, without asking the API; that call changes nothing |
| GitHubCachedClient.FetchReviewsThenHit | internal/github/cached_client.go:64-96 | a review list fetched and written successfully is what the next call returns within its TTL; that call changes nothing |
| GitHubCachedClient.ReviewsTTLOfCachedPR | internal/github/cached_client.go:80-93 | reviews are kept for a day exactly when their PR is in the cache and closed, and for an hour otherwise |
| DeployClient.TestPipelinesMembers | internal/deploy/client.go:90-103 | the kept pipelines are exactly those whose lower-cased name contains `test4` |
| DeployClient.KeptReleasesMembers | internal/deploy/client.go:141-149 | the kept releases are exactly those created within the window (both ends included) that rendered successfully |
| DeployClient.CollectReleasesStopsAtError | internal/deploy/client.go:116-154 | once the release listing of a pipeline fails, the call fails with that error whatever follows |
| DeployClient.CollectReleasesSound | internal/deploy/client.go:116-154 | every collected release was listed by one of the pipelines, lies in the window and rendered successfully |
| DeployClient.CollectReleasesComplete | internal/deploy/client.go:116-154 | when the call succeeds, every release any pipeline lists that lies in the window and rendered successfully is collected |
| DeployClient.CollectReleasesFailsAtFirstError | internal/deploy/client.go:116-134 | the call succeeds exactly when every pipeline's release listing succeeds; otherwise it fails naming the first pipeline whose listing failed |
| DeployClient.FetchReleasesSound | internal/deploy/client.go:77-157 | a failed pipeline listing and the absence of any test pipeline are errors; otherwise every release returned comes from a test pipeline, lies in the window and rendered successfully |
| DeployClient.FetchReleasesComplete | internal/deploy/client.go:77-157 | after a successful pipeline listing: with a test pipeline and every test pipeline's listing succeeding the call succeeds; a success returns every release of a test pipeline that lies in the window and rendered successfully; a test pipeline whose listing fails makes the call fail with a release-listing error naming a failing test pipeline |
| DeployClient.FilterTestPipelines | internal/deploy/client.go:90-103 | the pipeline loop returns `TestPipelines`, characterised by `TestPipelinesMembers` |
| DeployClient.FilterReleases | internal/deploy/client.go:127-150 | the release loop returns `KeptReleases`, characterised by `KeptReleasesMembers` |
| DeployClient.FetchTestEnvironmentReleases | internal/deploy/client.go:77-157 | the method returns `FetchReleasesSpec`, characterised by `FetchReleasesSound` and `FetchReleasesComplete` |
| DeployClient.CommitUrlSha | internal/deploy/client.go:165-176 | without `git-sha`, the SHA taken from the `commit` URL is the text after its last '/' |
| DeployClient.LineShaIsHexCapture | internal/deploy/client.go:207-220 | a SHA is found only on an added line; the PR-number pattern is preferred; the SHA is 7 to 40 lowercase hex characters of the line |
| DeployClient.FirstLineShaIsFirst | internal/deploy/client.go:205-221 | the line search finds nothing exactly when no line names a SHA; otherwise it finds the first such line's SHA |
| DeployClient.FilesShaIsFirst | internal/deploy/client.go:199-226 | across files the first file whose patch names a SHA decides; no file names one exactly when the search finds none |
| DeployClient.FilesShaIsHex | internal/deploy/client.go:196-218 | any SHA a diff yields is 7 to 40 lowercase hex characters |
| DeployClient.ScanDiff | internal/deploy/client.go:199-226 | the nested loop with its early exits yields the first SHA across files and lines, or "" |
| DeployClient.ExtractCommitShaFromRelease | internal/deploy/client.go:160-241 | the method returns `ExtractSpec` |
| DeployClient.ExtractOk | internal/deploy/client.go:160-241 | a successful extraction had a non-empty SHA annotation, fetched that tags commit, found files there, and returns the first SHA of their diff with the committer time of that services commit |
| DeployMetrics.ReleaseIDIsLastSegment | internal/deploy/metrics.go:18-22 | the release ID is the text after the last '/' of the release name |
| DeployMetrics.DeploymentsSound | internal/deploy/metrics.go:12-59 | there are no more metrics than releases; each is marked successful and has latency equal to finish minus commit time, so it can be negative |
| DeployMetrics.DeploymentsInOrder | internal/deploy/metrics.go:15-56 | metrics follow release order: the metrics of a concatenation are those of the first part followed by those of the second |
| DeployMetrics.ProcessDeployments | internal/deploy/metrics.go:12-59 | the loop returns `DeploymentsSpec`: a release whose commit or finish time is not found is skipped, and the batch goes on |
| DeployMetrics.GroupMembers | internal/deploy/metrics.go:63-70 | a PR's group holds exactly the metrics with that PR number |
| DeployMetrics.GroupMapIsGroups | internal/deploy/metrics.go:63-70 | the grouping map has one non-empty group per non-empty PR number, holding that PR's metrics in input order; an empty PR number gets no group |
| DeployMetrics.GroupByPR | internal/deploy/metrics.go:63-70 | the grouping loop builds `GroupMap` |
| DeployMetrics.GroupStats | internal/deploy/metrics.go:76-111 | a group's statistics are its number, its metrics and its size; the earliest commit time and the latest finish time of the group with their difference; and its SHAs, each exactly once |
| DeployMetrics.StatsOfGroupMap | internal/deploy/metrics.go:62-116 | statistics that cover the grouping map cover exactly the non-empty PR numbers, each entry describing its PR's group |
| DeployMetrics.CalculatePRDeploymentStats | internal/deploy/metrics.go:62-116 | one entry per non-empty PR number, each PR once, in any order; each entry is the statistics of that PR's group |
| DeployCachedClient.CachedDeployClient.FetchTestEnvironmentReleases | internal/deploy/cached_client.go:33-52 | the result and the new disk are `FetchReleasesSpec`: the wrapped client's list, with each succeeded or failed release written for a day |
| DeployCachedClient.CachedDeployClient.ExtractCommitShaFromRelease | internal/deploy/cached_client.go:55-59 | the wrapped client's answer is returned unchanged |
| DeployCachedClient.CachedDeployClient.GetReleaseFinishTime | internal/deploy/cached_client.go:62-87 | the result and the new disk are `FinishTimeSpec`: cache lookup, then the wrapped client, then a day's write if the release is settled |
| DeployCachedClient.CachedDeployClient.Close | internal/deploy/cached_client.go:101-104 | closing returns what closing the wrapped client returns, and the cache is closed as well (deferred in the source) |
| DeployCachedClient.FetchReleasesIgnoresCache | internal/deploy/cached_client.go:33-52 | the release list is the wrapped client's answer whatever the cache holds; an error writes nothing |
| DeployCachedClient.CacheReleasesKeepsOthers | internal/deploy/cached_client.go:42-49 | only release keys of succeeded or failed releases are written; every other file stays as it was |
| DeployCachedClient.CacheReleasesAppend | internal/deploy/cached_client.go:42-49 | the per-release loop over a list is the loop over its first part followed by the loop over the rest |
| DeployCachedClient.CachedReleaseReadable | internal/deploy/cached_client.go:42-49 | any succeeded or failed release of the list whose write succeeded reads back under its release key within a day, unless a later such release of the list is written to the same file |
| DeployCachedClient.FinishTimeAnswer | internal/deploy/cached_client.go:62-77 | a hit returns the cached time without asking the client and changes nothing; a miss returns the client's answer; a client error writes nothing |
| DeployCachedClient.FinishTimeOfUnsettledReleaseNotCached | internal/deploy/cached_client.go:80-84 | the finish time of a release that is not succeeded or failed is never written |
| DeployCachedClient.FinishTimeThenHit | internal/deploy/cached_client.go:62-87 | a finish time fetched for a settled release and written successfully is what the next call returns within a day; that call changes nothing |
| CircleCI.Metrics | internal/circleci/metrics.go:17-30 | one metric per test |
| CircleCI.MetricsAt | internal/circleci/metrics.go:17-30 | the i-th metric is the i-th test's metric |
| CircleCI.ProcessFlakyTests | internal/circleci/metrics.go:14-38 | as many results as tests, sorted by times flaky from most to least, a permutation of the tests' metrics |
| CircleCI.ResultsAreTheTestsMetrics | internal/circleci/metrics.go:17-30 | every result is an input test's metric and every test's metric is a result; names and counts are copied; last occurrence is set exactly when the test has a pipeline run, to that run's creation time |
| CircleCI.ThreeTestsExample | internal/circleci/metrics_test.go:8-77 | the package's three example tests come out with the 5-times-flaky test first, with its last occurrence set, and the test without a pipeline run last |
| CircleCICachedClient.CachedCircleCIClient.FetchFlakyTests | internal/circleci/cached_client.go:27-51 | the result and the new disk are `FetchFlakyTestsSpec`: cache lookup, then the API, then the list written for an hour |
| CircleCICachedClient.CachedCircleCIClient.VerifyProjectAccess | internal/circleci/cached_client.go:54-56 | the wrapped client's answer, without touching the cache |
| CircleCICachedClient.CachedCircleCIClient.Close | internal/circleci/cached_client.go:59-61 | the wrapped client's close result; the cache stays open |
| CircleCICachedClient.FetchFlakyTestsAnswer | internal/circleci/cached_client.go:29-48 | a hit returns the cached tests and changes nothing; otherwise the API's answer is returned, an API error writes nothing, and every error returned is the API's, never a cache error |
| CircleCICachedClient.FetchFlakyTestsThenHit | internal/circleci/cached_client.go:27-51 | a list fetched and written successfully is what the next call returns within the hour; that call changes nothing |
| CircleCICachedClient.FetchFlakyTestsIsLocal | internal/circleci/cached_client.go:27-51 | a fetch touches only the file of the project's flaky-test key |
| Sorting.SortBy | cmd/deploy-tracker/main.go:197-202 | the array ends sorted by the key in the requested direction, and it is a permutation of its old contents |
| Sorting.SortedPermutationUnique | cmd/pr-tracker/main.go:269 | two integer sequences that are sorted the same way and have the same elements are equal, so what a sort produces does not depend on its input order |
| Stats.GoDiv | cmd/pr-tracker/main.go:316-318 | integer division truncates toward zero, as in Go: the remainder has the sign of the dividend and is smaller than the divisor |
| Stats.MedianOfSorted | cmd/pr-tracker/main.go:262-280 | the median of no values is 0; for an odd count it is the middle value |
| Stats.MedianBounds | cmd/pr-tracker/main.go:269-279 | the median of a sorted, non-empty sample lies between its first and last value, including the truncated average of an even count |
| Stats.MedianIgnoresOrder | cmd/pr-tracker/main.go:269 | two sorted arrangements of the same values have the same median |
| Stats.CalculateMedian | cmd/deploy-tracker/main.go:132-150 | the caller's array is sorted in place and stays a permutation of its contents; the result is the median of the sorted contents |
| Stats.MeanBounds | cmd/deploy-tracker/main.go:170 | the truncated mean of a non-empty sample lies between any lower and upper bound of its values |
| Stats.SummaryWithinSample | cmd/pr-tracker/main.go:312-359 | a shown mean and median lie within any bounds of the sample |
| Stats.PositiveSummary | cmd/deploy-tracker/main.go:168-173 | a sample of positive durations shows a positive mean and median |
| Stats.Summarize | cmd/deploy-tracker/main.go:168-181 | nothing for an empty sample; otherwise its size, its truncated mean and the median of its values sorted |
| PRTracker.EmptyExcludeSkipsEmptyLogins | cmd/pr-tracker/main.go:56 | with an empty `-exclude` flag the deny-list is `[""]`, so a PR or a review with an empty login is skipped |
| PRTracker.SameAsLibrary | cmd/pr-tracker/main.go:105-203 | the tool reports what the library's `ProcessPullRequests` reports, whatever tags repository the library is given, less the tag commits: same PRs, same skip rules, same order, same fields |
| PRTracker.OnePRAsLibrary | cmd/pr-tracker/main.go:109-202 | the same for a single PR |
| PRTracker.BuildResult | cmd/pr-tracker/main.go:130-201 | the result built for an eligible PR is `ResultOf` its reviews |
| PRTracker.ProcessPullRequests | cmd/pr-tracker/main.go:105-203 | the tool's loop returns its `ProcessSpec`, which `SameAsLibrary` ties to the library |
| PRTracker.SamplesMembers | cmd/pr-tracker/main.go:294-310 | the review and approval samples hold exactly the positive durations of reviewed PRs; the waiting sample holds the time since creation of each unreviewed PR, one per PR |
| PRTracker.CollectSamples | cmd/pr-tracker/main.go:290-310 | the loop yields the three samples and their running totals |
| PRTracker.SummaryStatistics | cmd/pr-tracker/main.go:283-359 | each of the three blocks is shown only for a non-empty sample and then gives its size, truncated mean and median |
| PRTracker.ReviewSummaryPositive | cmd/pr-tracker/main.go:294-348 | a shown time to first review or to approval has a positive mean and median |
| DeployTracker.LatencySamplesMembers | cmd/deploy-tracker/main.go:157-162 | a latency is sampled exactly when its deployment succeeded and it is positive; zero and negative latencies are left out |
| DeployTracker.LatencySamplesPositive | cmd/deploy-tracker/main.go:158 | every latency sample is positive |
| DeployTracker.CollectLatencies | cmd/deploy-tracker/main.go:154-162 | the loop yields the latency sample and its total |
| DeployTracker.DeploymentSummaryStatistics | cmd/deploy-tracker/main.go:153-182 | the latency block is shown only for a non-empty sample and then gives its size, truncated mean and median |
| DeployTracker.LatencySummaryPositive | cmd/deploy-tracker/main.go:168-178 | a shown mean or median latency is positive |
| DeployTracker.MaxDeployments | cmd/deploy-tracker/main.go:223-232 | the largest count, starting from 0: no entry exceeds it, and it is 0 or some entry's count |
| DeployTracker.MultipleDeploymentPRsBounds | cmd/deploy-tracker/main.go:227-229 | the number of PRs deployed more than once is at most the number of PRs, and is 0 exactly when no PR was deployed more than once |
| DeployTracker.SummaryCounters | cmd/deploy-tracker/main.go:221-233 | the counter loop yields the sum of the counts, the number of counts above 1, and the largest count |
| DeployTracker.PRDeploymentStatistics | cmd/deploy-tracker/main.go:185-240 | nothing for no PRs; otherwise the stats are reordered in place, most deployed first, as a permutation, and then counted |
| DeployTracker.MaxIsFirstWhenSorted | cmd/deploy-tracker/main.go:197-233 | after the descending sort the largest count is the first entry's |
| DeployTracker.PrintResults | cmd/deploy-tracker/main.go:104-129 | an empty result list shows nothing further and leaves the stats untouched; otherwise the latency summary and the PR summary |
| FlakyTests.FlakinessValuesAt | cmd/flaky-tests/main.go:109-112 | the i-th value collected is the i-th result's times flaky |
| FlakyTests.RealMedianBounds | cmd/flaky-tests/main.go:119-125 | the real median of a sorted sample lies between its first and last value |
| FlakyTests.CollectFlakiness | cmd/flaky-tests/main.go:106-112 | the loop yields the flakiness counts in order and their total |
| FlakyTests.MedianOfCounts | cmd/flaky-tests/main.go:119-125 | the median block yields the middle value, or the exact average of the two middle values |
| FlakyTests.SortedCopy | cmd/flaky-tests/main.go:118 | `slices.Sort` yields the counts sorted ascending, as a permutation |
| FlakyTests.SummaryStatistics | cmd/flaky-tests/main.go:100-135 | nothing for no results; otherwise the number of tests, the total, the real mean, and the median, largest and smallest of the sorted counts |
| FlakyTests.SummaryBounds | cmd/flaky-tests/main.go:115-134 | "least" and "most" are the smallest and the largest times flaky of any result, both attained, and mean and median lie between them |
| FlakyTests.PrintResults | cmd/flaky-tests/main.go:75-97 | an empty list shows no summary, so nothing is indexed; otherwise the summary of the list |

## Left out

- Network clients: `internal/github/client.go` and `internal/circleci/client.go` are not part of this model. The GitHub, Cloud Deploy and CircleCI services, and the services behind the wrapped deploy client, are function-typed fields that may return an error. Their pagination and HTTP handling are not modelled.
- `FindFirstLogEntry` (Cloud Logging) is not modelled. It is an external query with no logic of its own here.
- `GetReleaseFinishTime` of the underlying deploy client is an abstract field, because no source file defines it. The same goes for the PR number that `ProcessDeployments` takes from extraction.
- The deploy client's constructor, the cached clients' constructors over tokens, `NewFileCache` and `os.UserCacheDir` are not modelled. The model's constructors take the services, the cache and the codecs directly.
- SHA-256 and hex encoding in `keyToFilename`: an opaque digest function into 64-character strings. Its collisions are excluded by explicit hypotheses where a lemma needs distinct files.
- JSON marshalling of values: an abstract `Codec`. Only the envelope has a concrete, round-tripping encoding.
- `FileCache.SetSpec`: the two `json.Marshal` failure returns of `Set` (`internal/cache/file_cache.go:77-80`, `94-97`) are not modelled, because the model's encoding of values and entries is total.
- `Times.FormatDate`: it renders a date in UTC, while Go's `Format("2006-01-02")` (`internal/cache/cache.go:63-64`, `77-78`) uses the time's own zone, which is the local zone for dates derived from `time.Now()`. `Cache.ListKeysDependOnlyOnDays` is therefore stated for UTC calendar days; for a time in another zone the day in the key can differ.
- OS file errors: the environment's locked directories and locked files decide them. Timing and concurrency of the file system are not modelled.
- Logging (`log.Printf` of swallowed cache errors), all `fmt.Printf` output, `Truncate` and timestamp formatting in the three commands. Each command method returns what would be shown instead.
- Flag parsing, date parsing and environment tokens of the three commands; pr-tracker's and flaky-tests' per-item list printing.
- The clock: a single explicit `now` per call. A real run reads the clock more than once.
- `PRListTTL`: the source compares `Hours()/24` as a float with 7. Here it is the integer comparison of `now - endDate` with seven days; they differ only by float rounding.
- `Text.ToLowerAscii`: the `test4` pipeline filter lowercases only the ASCII letters; Go's `strings.ToLower` also folds the rest of Unicode, which the model does not have.
- Go's 64-bit `time.Duration` and `int`: durations, sums and counts are unbounded integers; overflow is not modelled.
- `FlakyTests.SummaryStatistics`: the flaky-test mean and median are exact reals, not `float64`, so rounding is not modelled.
- Go's map iteration order: `CalculatePRDeploymentStats` promises only set-level facts about its entries and the SHAs of a group. The model's particular order of entries and SHAs is one admissible order.
- The unstable Go sorts: insertion sort is one admissible order. Every sort contract states only sortedness and permutation.
- Nil pointers (nil releases, PRs or reviews) are not modelled. Go would panic on most of them where the source does not check, and the model's values are never nil. `IsPRCacheable` and `IsReleaseCacheable` take an `Option` to keep their nil case.
- GitHub's `models.go` and `internal/deploy/models.go` beyond the fields used: datatypes hold only the fields the core reads.
- Determinism of key construction is not a separate lemma: every Dafny function is deterministic by construction.
