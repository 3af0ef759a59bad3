/** The GitHub records the core reads (the fields it uses of go-github's pull
    request, review and commit types), the records it produces, and the
    GitHub client as an interface of functions that may fail. A field that
    go-github returns through a nil-safe getter holds that getter's result
    here: "" for a missing string, `None` for a zero time. */
module GitHubTypes {
  import opened Wrappers

  datatype PullRequest = PullRequest(
    number: int,
    title: string,
    state: string,
    draft: bool,
    author: string,
    createdAt: int,
    mergedAt: Option<int>,
    closedAt: Option<int>,
    headRef: string)

  datatype Review = Review(user: string, state: string, submittedAt: int)

  datatype CommitFile = CommitFile(patch: Option<string>)

  /** A commit with its diff, as `FetchCommit` returns it; a listed commit
      carries only its SHA (its other fields are empty). */
  datatype RepositoryCommit = RepositoryCommit(
    sha: string,
    message: string,
    authorName: string,
    authorDate: int,
    committerDate: int,
    files: seq<CommitFile>)

  /** A tags-repository commit that refers to a PR. */
  datatype TagCommit = TagCommit(sha: string, message: string, date: int, author: string)

  /** What the review correlator reports for one PR (durations in nanoseconds). */
  datatype PullRequestMetric = PullRequestMetric(
    prTitle: string,
    prNumber: int,
    author: string,
    timeToFirstReview: int,
    firstReviewer: string,
    firstReviewState: string,
    timeToApproval: int,
    approver: string,
    hasReview: bool,
    timeSinceCreation: int,
    tagCommits: seq<TagCommit>)

  datatype ApiError = ApiError(message: string)

  /** `GitHubClientInterface`: each call is a function of its arguments. */
  datatype GitHubApi = GitHubApi(
    fetchPullRequests: (string, string, int, int) -> Result<seq<PullRequest>, ApiError>,
    fetchPullRequestReviews: (string, string, int) -> Result<seq<Review>, ApiError>,
    fetchCommits: (string, string, int, int) -> Result<seq<RepositoryCommit>, ApiError>,
    fetchCommit: (string, string, string) -> Result<RepositoryCommit, ApiError>)
}
