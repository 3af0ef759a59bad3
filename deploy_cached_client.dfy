/** `CachedDeployClient`: the deploy client behind the file cache. Release
    lists always come from the wrapped client, and the releases in a final
    state are written to the cache on the way out; rollout finish times are
    read through the cache. A cache error never fails a call. */
module DeployCachedClient {
  import opened Wrappers
  import opened Times
  import opened Cache
  import opened FileCache
  import opened DeployModels

  /** The wrapped deploy client, as the cached client uses it: the release
      list for a window, the commit of a release, the finish time of its
      rollouts and the result of closing it. Any of them may fail. */
  datatype WrappedClient = WrappedClient(
    projectID: string,
    region: string,
    fetchReleases: (int, int) -> Result<seq<Release>, DeployError>,
    extract: Release -> Result<(string, string, int), DeployError>,
    finishTime: Release -> Result<int, DeployError>,
    closeResult: Outcome<DeployError>)

  /** `isReleaseCacheable`: a release in a final render state (succeeded or
      failed); a missing release is not cacheable. */
  predicate IsReleaseCacheable(release: Option<Release>) {
    release.Some? && (release.value.renderState == Succeeded || release.value.renderState == Failed)
  }

  class CachedDeployClient {
    const client: WrappedClient
    const cache: FileCache
    const kb: KeyBuilder
    const releaseCodec: Codec<Release>
    const timeCodec: Codec<int>

    constructor (client: WrappedClient, cache: FileCache, releaseCodec: Codec<Release>, timeCodec: Codec<int>)
      ensures this.client == client && this.cache == cache && kb == KeyBuilder("deploy")
      ensures this.releaseCodec == releaseCodec && this.timeCodec == timeCodec
    {
      this.client := client;
      this.cache := cache;
      this.kb := KeyBuilder("deploy");
      this.releaseCodec := releaseCodec;
      this.timeCodec := timeCodec;
    }

    function ReleaseKeyOf(release: Release): string {
      kb.ReleaseKey(client.projectID, client.region, release.name)
    }

    function RolloutsKeyOf(release: Release): string {
      kb.RolloutsKey(client.projectID, client.region, release.name)
    }

    /** The disk after each cacheable release of `releases` is written in
        turn under its release key for a day (failed writes change nothing). */
    function CacheReleases(d: Disk, releases: seq<Release>, now: int): Disk {
      if |releases| == 0 then d
      else
        var d1 := CacheReleases(d, releases[..|releases| - 1], now);
        var release := releases[|releases| - 1];
        if IsReleaseCacheable(Some(release)) then
          var key := ReleaseKeyOf(release);
          SetSpec(d1, cache.DirOf(key), cache.PathOf(key), releaseCodec, release, Day, now).1
        else d1
    }

    /** `FetchTestEnvironmentReleases` on disk `d`. */
    function FetchReleasesSpec(d: Disk, startDate: int, endDate: int, now: int): (Result<seq<Release>, DeployError>, Disk) {
      match client.fetchReleases(startDate, endDate)
      case Err(e) => (Err(e), d)
      case Ok(releases) => (Ok(releases), CacheReleases(d, releases, now))
    }

    /** `GetReleaseFinishTime` on disk `d`. */
    function FinishTimeSpec(d: Disk, release: Release, now: int): (Result<int, DeployError>, Disk) {
      var key := RolloutsKeyOf(release);
      var got := GetSpec(d, cache.PathOf(key), timeCodec, now);
      if got.0.Ok? then (Ok(got.0.value), got.1)
      else match client.finishTime(release)
        case Err(e) => (Err(e), got.1)
        case Ok(t) =>
          if IsReleaseCacheable(Some(release)) then
            (Ok(t), SetSpec(got.1, cache.DirOf(key), cache.PathOf(key), timeCodec, t, Day, now).1)
          else (Ok(t), got.1)
    }

    method FetchTestEnvironmentReleases(startDate: int, endDate: int, now: int)
      returns (r: Result<seq<Release>, DeployError>)
      modifies cache
      ensures (r, cache.disk) == FetchReleasesSpec(old(cache.disk), startDate, endDate, now)
    {
      var fetched := client.fetchReleases(startDate, endDate);
      if fetched.Err? {
        return Err(fetched.error);
      }
      var releases := fetched.value;
      ghost var d0 := cache.disk;
      var i := 0;
      while i < |releases|
        invariant 0 <= i <= |releases|
        invariant cache.disk == CacheReleases(d0, releases[..i], now)
      {
        assert releases[..i + 1][..i] == releases[..i];
        var release := releases[i];
        if IsReleaseCacheable(Some(release)) {
          var releaseKey := kb.ReleaseKey(client.projectID, client.region, release.name);
          var _ := cache.Set(releaseKey, releaseCodec, release, 24 * Hour, now);
        }
        i := i + 1;
      }
      assert releases[..|releases|] == releases;
      return Ok(releases);
    }

    /** `ExtractCommitSHAFromRelease` hands the release to the wrapped client
        and returns its answer unchanged. */
    method ExtractCommitShaFromRelease(release: Release) returns (r: Result<(string, string, int), DeployError>)
      ensures r == client.extract(release)
    {
      r := client.extract(release);
    }

    method GetReleaseFinishTime(release: Release, now: int) returns (r: Result<int, DeployError>)
      modifies cache
      ensures (r, cache.disk) == FinishTimeSpec(old(cache.disk), release, now)
    {
      var rolloutsKey := kb.RolloutsKey(client.projectID, client.region, release.name);
      var cached := cache.Get(rolloutsKey, timeCodec, now);
      if cached.Ok? {
        return Ok(cached.value);
      }
      var finishTime := client.finishTime(release);
      if finishTime.Err? {
        return Err(finishTime.error);
      }
      if IsReleaseCacheable(Some(release)) {
        var _ := cache.Set(rolloutsKey, timeCodec, finishTime.value, 24 * Hour, now);
      }
      return Ok(finishTime.value);
    }

    /** `Close` returns what closing the wrapped client returns, and closes
        the cache after it. */
    method Close() returns (r: Outcome<DeployError>)
      ensures r == client.closeResult
    {
      r := client.closeResult;
      var _ := cache.Close();
    }
  }

  // ---------------------------------------------------------------------
  // Properties of the cached client.

  /** The release list is the wrapped client's answer whatever the cache
      holds; an error writes nothing. */
  lemma FetchReleasesIgnoresCache(c: CachedDeployClient, d: Disk, startDate: int, endDate: int, now: int)
    ensures c.FetchReleasesSpec(d, startDate, endDate, now).0 == c.client.fetchReleases(startDate, endDate)
    ensures c.client.fetchReleases(startDate, endDate).Err? ==> c.FetchReleasesSpec(d, startDate, endDate, now).1 == d
  {
  }

  /** Writing the releases leaves every file that is not the release key of
      a cacheable release as it was; in particular a release that is not in
      a final state is never written. */
  lemma {:induction false} CacheReleasesKeepsOthers(c: CachedDeployClient, d: Disk, releases: seq<Release>, now: int,
                                                    path: string)
    requires forall r :: r in releases && IsReleaseCacheable(Some(r)) ==> c.cache.PathOf(c.ReleaseKeyOf(r)) != path
    ensures var d' := c.CacheReleases(d, releases, now);
            (path in d'.files <==> path in d.files) && (path in d.files ==> d'.files[path] == d.files[path])
            && d'.lockedDirs == d.lockedDirs && d'.lockedFiles == d.lockedFiles
  {
    if |releases| > 0 {
      var init := releases[..|releases| - 1];
      var release := releases[|releases| - 1];
      assert forall r :: r in init ==> r in releases;
      CacheReleasesKeepsOthers(c, d, init, now, path);
      assert release in releases;
      if IsReleaseCacheable(Some(release)) {
        var key := c.ReleaseKeyOf(release);
        var d1 := c.CacheReleases(d, init, now);
        var d2 := SetSpec(d1, c.cache.DirOf(key), c.cache.PathOf(key), c.releaseCodec, release, Day, now).1;
        assert d2.files == d1.files || d2.files == d1.files[c.cache.PathOf(key) := d2.files[c.cache.PathOf(key)]];
      }
    }
  }

  /** Writing a list in two parts is writing its first part, then its
      second part. */
  lemma {:induction false} CacheReleasesAppend(c: CachedDeployClient, d: Disk, a: seq<Release>, b: seq<Release>,
                                               now: int)
    ensures c.CacheReleases(d, a + b, now) == c.CacheReleases(c.CacheReleases(d, a, now), b, now)
  {
    if |b| == 0 {
      assert a + b == a;
    } else {
      var init := b[..|b| - 1];
      assert (a + b)[..|a + b| - 1] == a + init;
      assert (a + b)[|a + b| - 1] == b[|b| - 1];
      CacheReleasesAppend(c, d, a, init, now);
    }
  }

  /** Any cacheable release of a fetched list whose write succeeded can be
      read back under its release key within a day, unless a later
      cacheable release of the list is written to the same file. */
  lemma {:induction false} CachedReleaseReadable(c: CachedDeployClient, d: Disk, releases: seq<Release>, i: int,
                                                 now: int, later: int)
    requires Lawful(c.releaseCodec)
    requires 0 <= i < |releases| && IsReleaseCacheable(Some(releases[i]))
    requires var key := c.ReleaseKeyOf(releases[i]);
             SetSpec(c.CacheReleases(d, releases[..i], now), c.cache.DirOf(key), c.cache.PathOf(key),
                     c.releaseCodec, releases[i], Day, now).0 == Pass
    requires forall j :: i < j < |releases| && IsReleaseCacheable(Some(releases[j])) ==>
               c.cache.PathOf(c.ReleaseKeyOf(releases[j])) != c.cache.PathOf(c.ReleaseKeyOf(releases[i]))
    requires later <= now + Day
    ensures var d' := c.CacheReleases(d, releases, now);
            GetSpec(d', c.cache.PathOf(c.ReleaseKeyOf(releases[i])), c.releaseCodec, later) == (Ok(releases[i]), d')
  {
    var release := releases[i];
    var key := c.ReleaseKeyOf(release);
    var path := c.cache.PathOf(key);
    var head := releases[..i + 1];
    var tail := releases[i + 1..];
    assert head[..i] == releases[..i];
    assert releases == head + tail;
    CacheReleasesAppend(c, d, head, tail, now);
    var d0 := c.CacheReleases(d, releases[..i], now);
    var d1 := c.CacheReleases(d, head, now);
    assert d1 == SetSpec(d0, c.cache.DirOf(key), path, c.releaseCodec, release, Day, now).1;
    SetThenGet(d0, c.cache.DirOf(key), path, c.releaseCodec, release, Day, now, later);
    forall r | r in tail && IsReleaseCacheable(Some(r))
      ensures c.cache.PathOf(c.ReleaseKeyOf(r)) != path
    {
      var k :| 0 <= k < |tail| && tail[k] == r;
      assert releases[i + 1 + k] == r;
    }
    CacheReleasesKeepsOthers(c, d1, tail, now, path);
    HitDependsOnFileOnly(d1, c.CacheReleases(d1, tail, now), path, c.releaseCodec, later);
  }

  /** A hit returns the cached finish time without asking the wrapped client
      and changes nothing; on a miss the call returns the client's answer,
      and a client error writes nothing. */
  lemma FinishTimeAnswer(c: CachedDeployClient, d: Disk, release: Release, now: int)
    ensures var got := GetSpec(d, c.cache.PathOf(c.RolloutsKeyOf(release)), c.timeCodec, now);
            var r := c.FinishTimeSpec(d, release, now);
            (got.0.Ok? ==> r == (Ok(got.0.value), d))
            && (!got.0.Ok? ==> r.0 == c.client.finishTime(release))
            && (!got.0.Ok? && r.0.Err? ==> r.1 == got.1)
  {
  }

  /** The finish time of a release that is not in a final state is never
      written: the disk is what the cache lookup left. */
  lemma FinishTimeOfUnsettledReleaseNotCached(c: CachedDeployClient, d: Disk, release: Release, now: int)
    requires !IsReleaseCacheable(Some(release))
    ensures c.FinishTimeSpec(d, release, now).1 == GetSpec(d, c.cache.PathOf(c.RolloutsKeyOf(release)), c.timeCodec, now).1
  {
  }

  /** A finish time fetched for a settled release and written to the cache
      is what the next call returns within a day, and that call changes
      nothing. */
  lemma FinishTimeThenHit(c: CachedDeployClient, d: Disk, release: Release, now: int, later: int)
    requires Lawful(c.timeCodec)
    requires IsReleaseCacheable(Some(release))
    requires var key := c.RolloutsKeyOf(release);
             var got := GetSpec(d, c.cache.PathOf(key), c.timeCodec, now);
             !got.0.Ok? && c.client.finishTime(release).Ok?
             && SetSpec(got.1, c.cache.DirOf(key), c.cache.PathOf(key), c.timeCodec,
                        c.client.finishTime(release).value, Day, now).0 == Pass
    requires later <= now + Day
    ensures var d' := c.FinishTimeSpec(d, release, now).1;
            c.FinishTimeSpec(d', release, later) == (Ok(c.client.finishTime(release).value), d')
  {
    var key := c.RolloutsKeyOf(release);
    var got := GetSpec(d, c.cache.PathOf(key), c.timeCodec, now);
    SetThenGet(got.1, c.cache.DirOf(key), c.cache.PathOf(key), c.timeCodec, c.client.finishTime(release).value, Day, now, later);
  }
}
