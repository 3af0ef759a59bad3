/** `CachedCircleCIClient`: the CircleCI client behind the file cache. Flaky
    test lists are read through the cache and kept for an hour; every cache
    error is swallowed. Project access checks and closing go straight to the
    wrapped client. */
module CircleCICachedClient {
  import opened Wrappers
  import opened Times
  import opened Cache
  import opened FileCache
  import opened CircleCI

  /** The wrapped CircleCI client: each call is a function of its arguments
      and may fail. */
  datatype CircleCIApi = CircleCIApi(
    fetchFlakyTests: (string, string) -> Result<seq<FlakyTest>, CircleCIError>,
    verifyProjectAccess: (string, string) -> Outcome<CircleCIError>,
    closeResult: Outcome<CircleCIError>)

  /** The TTL of a cached flaky-test list. */
  const FlakyTestsTTL: int := 1 * Hour

  class CachedCircleCIClient {
    const client: CircleCIApi
    const cache: FileCache
    const kb: KeyBuilder
    const testsCodec: Codec<seq<FlakyTest>>

    constructor (client: CircleCIApi, cache: FileCache, testsCodec: Codec<seq<FlakyTest>>)
      ensures this.client == client && this.cache == cache && kb == KeyBuilder("circleci")
      ensures this.testsCodec == testsCodec
    {
      this.client := client;
      this.cache := cache;
      this.kb := KeyBuilder("circleci");
      this.testsCodec := testsCodec;
    }

    /** `FetchFlakyTests` on disk `d`. */
    function FetchFlakyTestsSpec(d: Disk, org: string, repo: string, now: int): (Result<seq<FlakyTest>, CircleCIError>, Disk) {
      var key := kb.FlakyTestsKey(org, repo);
      var got := GetSpec(d, cache.PathOf(key), testsCodec, now);
      if got.0.Ok? then (Ok(got.0.value), got.1)
      else match client.fetchFlakyTests(org, repo)
        case Err(e) => (Err(e), got.1)
        case Ok(tests) => (Ok(tests), SetSpec(got.1, cache.DirOf(key), cache.PathOf(key), testsCodec, tests, FlakyTestsTTL, now).1)
    }

    method FetchFlakyTests(org: string, repo: string, now: int) returns (r: Result<seq<FlakyTest>, CircleCIError>)
      modifies cache
      ensures (r, cache.disk) == FetchFlakyTestsSpec(old(cache.disk), org, repo, now)
    {
      var key := kb.FlakyTestsKey(org, repo);
      var cached := cache.Get(key, testsCodec, now);
      if cached.Ok? {
        return Ok(cached.value);
      }
      var tests := client.fetchFlakyTests(org, repo);
      if tests.Err? {
        return Err(tests.error);
      }
      var _ := cache.Set(key, testsCodec, tests.value, 1 * Hour, now);
      return Ok(tests.value);
    }

    /** `VerifyProjectAccess` asks the wrapped client and leaves the cache
        alone (the method may not modify it). */
    method VerifyProjectAccess(org: string, repo: string) returns (r: Outcome<CircleCIError>)
      ensures r == client.verifyProjectAccess(org, repo)
    {
      r := client.verifyProjectAccess(org, repo);
    }

    /** `Close` closes the wrapped client only; the cache stays open. */
    method Close() returns (r: Outcome<CircleCIError>)
      ensures r == client.closeResult
    {
      r := client.closeResult;
    }
  }

  // ---------------------------------------------------------------------
  // Properties of the cached client.

  /** A hit returns the cached list and changes nothing; otherwise the call
      returns what the wrapped client returns, and an error writes nothing.
      No cache error ever reaches the caller: every error returned is the
      client's. */
  lemma FetchFlakyTestsAnswer(c: CachedCircleCIClient, d: Disk, org: string, repo: string, now: int)
    ensures var got := GetSpec(d, c.cache.PathOf(c.kb.FlakyTestsKey(org, repo)), c.testsCodec, now);
            var r := c.FetchFlakyTestsSpec(d, org, repo, now);
            (got.0.Ok? ==> r == (Ok(got.0.value), d))
            && (!got.0.Ok? ==> r.0 == c.client.fetchFlakyTests(org, repo))
            && (!got.0.Ok? && r.0.Err? ==> r.1 == got.1)
            && (r.0.Err? ==> c.client.fetchFlakyTests(org, repo) == r.0)
  {
  }

  /** A list fetched from CircleCI and written to the cache is what the next
      call returns within the hour, and that call changes nothing. */
  lemma FetchFlakyTestsThenHit(c: CachedCircleCIClient, d: Disk, org: string, repo: string, now: int, later: int)
    requires Lawful(c.testsCodec)
    requires var key := c.kb.FlakyTestsKey(org, repo);
             var got := GetSpec(d, c.cache.PathOf(key), c.testsCodec, now);
             !got.0.Ok? && c.client.fetchFlakyTests(org, repo).Ok?
             && SetSpec(got.1, c.cache.DirOf(key), c.cache.PathOf(key), c.testsCodec,
                        c.client.fetchFlakyTests(org, repo).value, FlakyTestsTTL, now).0 == Pass
    requires later <= now + FlakyTestsTTL
    ensures var d' := c.FetchFlakyTestsSpec(d, org, repo, now).1;
            c.FetchFlakyTestsSpec(d', org, repo, later) == (Ok(c.client.fetchFlakyTests(org, repo).value), d')
  {
    var key := c.kb.FlakyTestsKey(org, repo);
    var got := GetSpec(d, c.cache.PathOf(key), c.testsCodec, now);
    SetThenGet(got.1, c.cache.DirOf(key), c.cache.PathOf(key), c.testsCodec,
               c.client.fetchFlakyTests(org, repo).value, FlakyTestsTTL, now, later);
  }

  /** A fetch touches only the file of the flaky-test key of its project. */
  lemma FetchFlakyTestsIsLocal(c: CachedCircleCIClient, d: Disk, org: string, repo: string, now: int)
    ensures SameElsewhere(d, c.FetchFlakyTestsSpec(d, org, repo, now).1, c.cache.PathOf(c.kb.FlakyTestsKey(org, repo)))
  {
    var key := c.kb.FlakyTestsKey(org, repo);
    var path := c.cache.PathOf(key);
    var got := GetSpec(d, path, c.testsCodec, now);
    OperationsAreLocal(d, c.cache.DirOf(key), path, c.testsCodec, [], FlakyTestsTTL, now);
    if !got.0.Ok? && c.client.fetchFlakyTests(org, repo).Ok? {
      OperationsAreLocal(got.1, c.cache.DirOf(key), path, c.testsCodec, c.client.fetchFlakyTests(org, repo).value,
                         FlakyTestsTTL, now);
    }
  }
}
