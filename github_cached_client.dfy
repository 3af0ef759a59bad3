/** `CachedGitHubClient`: the GitHub client behind the file cache. Lists of
    PRs, single closed PRs and review lists are read through the cache; a
    cache error other than a miss is only logged, and a failed write never
    fails the call. */
module GitHubCachedClient {
  import opened Wrappers
  import opened Times
  import opened Cache
  import opened FileCache
  import opened GitHubTypes

  /** `isPRCacheable`: a PR is kept for a day once it is closed, merged or
      not; a missing PR is not cacheable. */
  predicate IsPRCacheable(pr: Option<PullRequest>) {
    pr.Some? && pr.value.state == "closed"
  }

  /** `calculatePRListTTL`: a day for a window that ended more than seven
      days before `now`, an hour otherwise. */
  function PRListTTL(endDate: int, now: int): (ttl: int)
    ensures ttl == Day || ttl == Hour
    ensures ttl == Day <==> now - endDate > 7 * Day
  {
    if now - endDate > 7 * Day then 24 * Hour else 1 * Hour
  }

  class CachedGitHubClient {
    const api: GitHubApi
    const cache: FileCache
    const kb: KeyBuilder
    const prsCodec: Codec<seq<PullRequest>>
    const prCodec: Codec<PullRequest>
    const reviewsCodec: Codec<seq<Review>>

    constructor (api: GitHubApi, cache: FileCache, prsCodec: Codec<seq<PullRequest>>,
                 prCodec: Codec<PullRequest>, reviewsCodec: Codec<seq<Review>>)
      ensures this.api == api && this.cache == cache && kb == KeyBuilder("github")
      ensures this.prsCodec == prsCodec && this.prCodec == prCodec && this.reviewsCodec == reviewsCodec
    {
      this.api := api;
      this.cache := cache;
      this.kb := KeyBuilder("github");
      this.prsCodec := prsCodec;
      this.prCodec := prCodec;
      this.reviewsCodec := reviewsCodec;
    }

    /** The disk after each cacheable PR of `prs` is written in turn under
        its PR key for a day (failed writes change nothing). */
    function CachePRs(d: Disk, owner: string, repo: string, prs: seq<PullRequest>, now: int): Disk {
      if |prs| == 0 then d
      else
        var d1 := CachePRs(d, owner, repo, prs[..|prs| - 1], now);
        var pr := prs[|prs| - 1];
        if IsPRCacheable(Some(pr)) then
          var key := kb.PRKey(owner, repo, pr.number);
          SetSpec(d1, cache.DirOf(key), cache.PathOf(key), prCodec, pr, Day, now).1
        else d1
    }

    /** `FetchPullRequests` on disk `d`: the result and the disk afterwards. */
    function FetchPRsSpec(d: Disk, owner: string, repo: string, startDate: int, endDate: int, now: int)
      : (Result<seq<PullRequest>, ApiError>, Disk)
    {
      var key := kb.PRsListKey(owner, repo, startDate, endDate);
      var got := GetSpec(d, cache.PathOf(key), prsCodec, now);
      if got.0.Ok? then (Ok(got.0.value), got.1)
      else match api.fetchPullRequests(owner, repo, startDate, endDate)
        case Err(e) => (Err(e), got.1)
        case Ok(prs) =>
          var d2 := SetSpec(got.1, cache.DirOf(key), cache.PathOf(key), prsCodec, prs, PRListTTL(endDate, now), now).1;
          (Ok(prs), CachePRs(d2, owner, repo, prs, now))
    }

    /** The TTL of a freshly fetched review list: a day when the PR itself is
        in the cache and closed, an hour otherwise (including every cache
        error on the PR). */
    function ReviewsTTL(d: Disk, owner: string, repo: string, prNumber: int, now: int): int {
      var got := GetSpec(d, cache.PathOf(kb.PRKey(owner, repo, prNumber)), prCodec, now);
      if got.0.Ok? && IsPRCacheable(Some(got.0.value)) then 24 * Hour else 1 * Hour
    }

    /** `FetchPullRequestReviews` on disk `d`. */
    function FetchReviewsSpec(d: Disk, owner: string, repo: string, prNumber: int, now: int)
      : (Result<seq<Review>, ApiError>, Disk)
    {
      var key := kb.PRReviewsKey(owner, repo, prNumber);
      var got := GetSpec(d, cache.PathOf(key), reviewsCodec, now);
      if got.0.Ok? then (Ok(got.0.value), got.1)
      else match api.fetchPullRequestReviews(owner, repo, prNumber)
        case Err(e) => (Err(e), got.1)
        case Ok(reviews) =>
          var prGot := GetSpec(got.1, cache.PathOf(kb.PRKey(owner, repo, prNumber)), prCodec, now);
          var ttl := ReviewsTTL(got.1, owner, repo, prNumber, now);
          (Ok(reviews), SetSpec(prGot.1, cache.DirOf(key), cache.PathOf(key), reviewsCodec, reviews, ttl, now).1)
    }

    method FetchPullRequests(owner: string, repo: string, startDate: int, endDate: int, now: int)
      returns (r: Result<seq<PullRequest>, ApiError>)
      modifies cache
      ensures (r, cache.disk) == FetchPRsSpec(old(cache.disk), owner, repo, startDate, endDate, now)
    {
      var key := kb.PRsListKey(owner, repo, startDate, endDate);
      var cached := cache.Get(key, prsCodec, now);
      if cached.Ok? {
        return Ok(cached.value);
      }
      var fetched := api.fetchPullRequests(owner, repo, startDate, endDate);
      if fetched.Err? {
        return Err(fetched.error);
      }
      var prs := fetched.value;
      var ttl := PRListTTL(endDate, now);
      var _ := cache.Set(key, prsCodec, prs, ttl, now);
      ghost var d2 := cache.disk;
      var i := 0;
      while i < |prs|
        invariant 0 <= i <= |prs|
        invariant cache.disk == CachePRs(d2, owner, repo, prs[..i], now)
      {
        assert prs[..i + 1][..i] == prs[..i];
        var pr := prs[i];
        if IsPRCacheable(Some(pr)) {
          var prKey := kb.PRKey(owner, repo, pr.number);
          var _ := cache.Set(prKey, prCodec, pr, 24 * Hour, now);
        }
        i := i + 1;
      }
      assert prs[..|prs|] == prs;
      return Ok(prs);
    }

    method FetchPullRequestReviews(owner: string, repo: string, prNumber: int, now: int)
      returns (r: Result<seq<Review>, ApiError>)
      modifies cache
      ensures (r, cache.disk) == FetchReviewsSpec(old(cache.disk), owner, repo, prNumber, now)
    {
      var key := kb.PRReviewsKey(owner, repo, prNumber);
      var cached := cache.Get(key, reviewsCodec, now);
      if cached.Ok? {
        return Ok(cached.value);
      }
      var fetched := api.fetchPullRequestReviews(owner, repo, prNumber);
      if fetched.Err? {
        return Err(fetched.error);
      }
      var reviews := fetched.value;
      var prKey := kb.PRKey(owner, repo, prNumber);
      var pr := cache.Get(prKey, prCodec, now);
      if pr.Ok? && IsPRCacheable(Some(pr.value)) {
        var _ := cache.Set(key, reviewsCodec, reviews, 24 * Hour, now);
      } else {
        var _ := cache.Set(key, reviewsCodec, reviews, 1 * Hour, now);
      }
      return Ok(reviews);
    }

    /** `Close` closes the cache. */
    method Close() returns (r: Outcome<CacheError>)
      ensures r == Pass
    {
      r := cache.Close();
    }
  }

  // ---------------------------------------------------------------------
  // Properties of the cached client.

  /** A hit returns the cached list and changes nothing; otherwise the call
      returns what the GitHub API returns, error included. */
  lemma FetchPRsAnswer(c: CachedGitHubClient, d: Disk, owner: string, repo: string, startDate: int, endDate: int, now: int)
    ensures var got := GetSpec(d, c.cache.PathOf(c.kb.PRsListKey(owner, repo, startDate, endDate)), c.prsCodec, now);
            var r := c.FetchPRsSpec(d, owner, repo, startDate, endDate, now);
            (got.0.Ok? ==> r == (Ok(got.0.value), d))
            && (!got.0.Ok? ==> r.0 == c.api.fetchPullRequests(owner, repo, startDate, endDate))
            && (!got.0.Ok? && r.0.Err? ==> r.1 == got.1)
  {
  }

  /** The same for review lists. */
  lemma FetchReviewsAnswer(c: CachedGitHubClient, d: Disk, owner: string, repo: string, prNumber: int, now: int)
    ensures var got := GetSpec(d, c.cache.PathOf(c.kb.PRReviewsKey(owner, repo, prNumber)), c.reviewsCodec, now);
            var r := c.FetchReviewsSpec(d, owner, repo, prNumber, now);
            (got.0.Ok? ==> r == (Ok(got.0.value), d))
            && (!got.0.Ok? ==> r.0 == c.api.fetchPullRequestReviews(owner, repo, prNumber))
            && (!got.0.Ok? && r.0.Err? ==> r.1 == got.1)
  {
  }

  /** Writing the single PRs leaves every file that no closed PR of the
      list is written to as it was. */
  lemma {:induction false} CachePRsKeepsOthers(c: CachedGitHubClient, d: Disk, owner: string, repo: string,
                                               prs: seq<PullRequest>, now: int, path: string)
    requires forall pr :: pr in prs && IsPRCacheable(Some(pr)) ==> c.cache.PathOf(c.kb.PRKey(owner, repo, pr.number)) != path
    ensures var d' := c.CachePRs(d, owner, repo, prs, now);
            (path in d'.files <==> path in d.files) && (path in d.files ==> d'.files[path] == d.files[path])
            && d'.lockedDirs == d.lockedDirs && d'.lockedFiles == d.lockedFiles
  {
    if |prs| > 0 {
      var init := prs[..|prs| - 1];
      var pr := prs[|prs| - 1];
      assert forall p :: p in init ==> p in prs;
      CachePRsKeepsOthers(c, d, owner, repo, init, now, path);
      assert pr in prs;
      if IsPRCacheable(Some(pr)) {
        var key := c.kb.PRKey(owner, repo, pr.number);
        SetKeepsOthers(c.CachePRs(d, owner, repo, init, now), c.cache.DirOf(key), c.cache.PathOf(key),
                       c.prCodec, pr, Day, now, path);
      }
    }
  }

  /** Writing a PR list in two parts is writing its first part, then its
      second part. */
  lemma {:induction false} CachePRsAppend(c: CachedGitHubClient, d: Disk, owner: string, repo: string,
                                          a: seq<PullRequest>, b: seq<PullRequest>, now: int)
    ensures c.CachePRs(d, owner, repo, a + b, now) == c.CachePRs(c.CachePRs(d, owner, repo, a, now), owner, repo, b, now)
  {
    if |b| == 0 {
      assert a + b == a;
    } else {
      var init := b[..|b| - 1];
      assert (a + b)[..|a + b| - 1] == a + init;
      assert (a + b)[|a + b| - 1] == b[|b| - 1];
      CachePRsAppend(c, d, owner, repo, a, init, now);
    }
  }

  /** Any closed PR of a fetched list whose write succeeded can be read back
      under its PR key within a day, unless a later closed PR of the list is
      written to the same file. */
  lemma {:induction false} CachedPRReadable(c: CachedGitHubClient, d: Disk, owner: string, repo: string,
                                            prs: seq<PullRequest>, i: int, now: int, later: int)
    requires Lawful(c.prCodec)
    requires 0 <= i < |prs| && IsPRCacheable(Some(prs[i]))
    requires var key := c.kb.PRKey(owner, repo, prs[i].number);
             SetSpec(c.CachePRs(d, owner, repo, prs[..i], now), c.cache.DirOf(key), c.cache.PathOf(key),
                     c.prCodec, prs[i], Day, now).0 == Pass
    requires forall j :: i < j < |prs| && IsPRCacheable(Some(prs[j])) ==>
               c.cache.PathOf(c.kb.PRKey(owner, repo, prs[j].number)) != c.cache.PathOf(c.kb.PRKey(owner, repo, prs[i].number))
    requires later <= now + Day
    ensures var d' := c.CachePRs(d, owner, repo, prs, now);
            GetSpec(d', c.cache.PathOf(c.kb.PRKey(owner, repo, prs[i].number)), c.prCodec, later) == (Ok(prs[i]), d')
  {
    var pr := prs[i];
    var key := c.kb.PRKey(owner, repo, pr.number);
    var path := c.cache.PathOf(key);
    var head := prs[..i + 1];
    var tail := prs[i + 1..];
    assert prs == head + tail;
    CachePRsAppend(c, d, owner, repo, head, tail, now);
    CachePRsStep(c, d, owner, repo, prs, i, now);
    var d0 := c.CachePRs(d, owner, repo, prs[..i], now);
    var d1 := c.CachePRs(d, owner, repo, head, now);
    SetThenGet(d0, c.cache.DirOf(key), path, c.prCodec, pr, Day, now, later);
    LaterPRsMissPath(c, owner, repo, prs, i);
    CachePRsKeepsOthers(c, d1, owner, repo, tail, now, path);
    HitDependsOnFileOnly(d1, c.CachePRs(d1, owner, repo, tail, now), path, c.prCodec, later);
  }

  /** Writing the PRs up to and including the one at `i` is writing those
      before it, then that one when it is closed. */
  lemma CachePRsStep(c: CachedGitHubClient, d: Disk, owner: string, repo: string, prs: seq<PullRequest>, i: int,
                     now: int)
    requires 0 <= i < |prs| && IsPRCacheable(Some(prs[i]))
    ensures var key := c.kb.PRKey(owner, repo, prs[i].number);
            c.CachePRs(d, owner, repo, prs[..i + 1], now)
            == SetSpec(c.CachePRs(d, owner, repo, prs[..i], now), c.cache.DirOf(key), c.cache.PathOf(key),
                       c.prCodec, prs[i], Day, now).1
  {
    assert prs[..i + 1][..i] == prs[..i];
  }

  /** The index condition on later PRs, stated over the tail of the list. */
  lemma LaterPRsMissPath(c: CachedGitHubClient, owner: string, repo: string, prs: seq<PullRequest>, i: int)
    requires 0 <= i < |prs|
    requires forall j :: i < j < |prs| && IsPRCacheable(Some(prs[j])) ==>
               c.cache.PathOf(c.kb.PRKey(owner, repo, prs[j].number)) != c.cache.PathOf(c.kb.PRKey(owner, repo, prs[i].number))
    ensures forall p :: p in prs[i + 1..] && IsPRCacheable(Some(p)) ==>
              c.cache.PathOf(c.kb.PRKey(owner, repo, p.number)) != c.cache.PathOf(c.kb.PRKey(owner, repo, prs[i].number))
  {
    var tail := prs[i + 1..];
    forall p | p in tail && IsPRCacheable(Some(p))
      ensures c.cache.PathOf(c.kb.PRKey(owner, repo, p.number)) != c.cache.PathOf(c.kb.PRKey(owner, repo, prs[i].number))
    {
      var k :| 0 <= k < |tail| && tail[k] == p;
      assert prs[i + 1 + k] == p;
    }
  }

  /** A `Set` leaves every other file as it was. */
  lemma SetKeepsOthers<V>(d: Disk, dir: string, p: string, codec: Codec<V>, v: V, ttl: int, now: int, path: string)
    requires p != path
    ensures var d' := SetSpec(d, dir, p, codec, v, ttl, now).1;
            (path in d'.files <==> path in d.files) && (path in d.files ==> d'.files[path] == d.files[path])
            && d'.lockedDirs == d.lockedDirs && d'.lockedFiles == d.lockedFiles
  {
  }

  /** A list fetched from the API and written to the cache is what the next
      call with the same arguments returns, as long as it comes within the
      list's TTL and no PR key's file name collides with the list key's. */
  lemma FetchPRsThenHit(c: CachedGitHubClient, d: Disk, owner: string, repo: string, startDate: int, endDate: int,
                        now: int, later: int)
    requires Lawful(c.prsCodec)
    requires var key := c.kb.PRsListKey(owner, repo, startDate, endDate);
             var got := GetSpec(d, c.cache.PathOf(key), c.prsCodec, now);
             !got.0.Ok? && c.api.fetchPullRequests(owner, repo, startDate, endDate).Ok?
             && SetSpec(got.1, c.cache.DirOf(key), c.cache.PathOf(key), c.prsCodec,
                        c.api.fetchPullRequests(owner, repo, startDate, endDate).value, PRListTTL(endDate, now), now).0 == Pass
    requires forall pr :: pr in c.api.fetchPullRequests(owner, repo, startDate, endDate).value ==>
               c.cache.digest(c.kb.PRKey(owner, repo, pr.number)) != c.cache.digest(c.kb.PRsListKey(owner, repo, startDate, endDate))
    requires now <= later <= now + PRListTTL(endDate, now)
    ensures var d' := c.FetchPRsSpec(d, owner, repo, startDate, endDate, now).1;
            c.FetchPRsSpec(d', owner, repo, startDate, endDate, later)
            == (Ok(c.api.fetchPullRequests(owner, repo, startDate, endDate).value), d')
  {
    var key := c.kb.PRsListKey(owner, repo, startDate, endDate);
    var path := c.cache.PathOf(key);
    var prs := c.api.fetchPullRequests(owner, repo, startDate, endDate).value;
    var d1 := GetSpec(d, path, c.prsCodec, now).1;
    var ttl := PRListTTL(endDate, now);
    var d2 := SetSpec(d1, c.cache.DirOf(key), path, c.prsCodec, prs, ttl, now).1;
    SetThenGet(d1, c.cache.DirOf(key), path, c.prsCodec, prs, ttl, now, later);
    forall pr | pr in prs
      ensures c.cache.PathOf(c.kb.PRKey(owner, repo, pr.number)) != path
    {
      ShardedPathInjective(c.cache.baseDir, c.cache.digest(c.kb.PRKey(owner, repo, pr.number)), c.cache.digest(key));
    }
    CachePRsKeepsOthers(c, d2, owner, repo, prs, now, path);
    var d3 := c.CachePRs(d2, owner, repo, prs, now);
    HitDependsOnFileOnly(d2, d3, path, c.prsCodec, later);
    assert GetSpec(d3, path, c.prsCodec, later) == (Ok(prs), d3);
  }

  /** A review list fetched from the API and written to the cache is what
      the next call for the same PR returns within its TTL, provided the PR
      key's file name does not collide with the review key's. */
  lemma FetchReviewsThenHit(c: CachedGitHubClient, d: Disk, owner: string, repo: string, prNumber: int,
                            now: int, later: int)
    requires Lawful(c.reviewsCodec)
    requires c.cache.digest(c.kb.PRKey(owner, repo, prNumber)) != c.cache.digest(c.kb.PRReviewsKey(owner, repo, prNumber))
    requires var key := c.kb.PRReviewsKey(owner, repo, prNumber);
             var got := GetSpec(d, c.cache.PathOf(key), c.reviewsCodec, now);
             var prGot := GetSpec(got.1, c.cache.PathOf(c.kb.PRKey(owner, repo, prNumber)), c.prCodec, now);
             !got.0.Ok? && c.api.fetchPullRequestReviews(owner, repo, prNumber).Ok?
             && SetSpec(prGot.1, c.cache.DirOf(key), c.cache.PathOf(key), c.reviewsCodec,
                        c.api.fetchPullRequestReviews(owner, repo, prNumber).value,
                        c.ReviewsTTL(got.1, owner, repo, prNumber, now), now).0 == Pass
             && now <= later <= now + c.ReviewsTTL(got.1, owner, repo, prNumber, now)
    ensures var d' := c.FetchReviewsSpec(d, owner, repo, prNumber, now).1;
            c.FetchReviewsSpec(d', owner, repo, prNumber, later)
            == (Ok(c.api.fetchPullRequestReviews(owner, repo, prNumber).value), d')
  {
    var key := c.kb.PRReviewsKey(owner, repo, prNumber);
    var path := c.cache.PathOf(key);
    var d1 := GetSpec(d, path, c.reviewsCodec, now).1;
    var prGot := GetSpec(d1, c.cache.PathOf(c.kb.PRKey(owner, repo, prNumber)), c.prCodec, now);
    var ttl := c.ReviewsTTL(d1, owner, repo, prNumber, now);
    var reviews := c.api.fetchPullRequestReviews(owner, repo, prNumber).value;
    SetThenGet(prGot.1, c.cache.DirOf(key), path, c.reviewsCodec, reviews, ttl, now, later);
  }

  /** Reviews are kept for a day exactly when their PR is in the cache and
      closed; `FetchPullRequests` is what puts closed PRs there. */
  lemma ReviewsTTLOfCachedPR(c: CachedGitHubClient, d: Disk, owner: string, repo: string, prNumber: int, now: int)
    ensures var got := GetSpec(d, c.cache.PathOf(c.kb.PRKey(owner, repo, prNumber)), c.prCodec, now);
            c.ReviewsTTL(d, owner, repo, prNumber, now) == (if got.0.Ok? && got.0.value.state == "closed" then Day else Hour)
  {
  }
}
