/** The parsing logic of the deploy client (`internal/deploy/client.go`):
    which pipelines and releases are kept, where a release's commit SHA comes
    from, and the scan of a tags-repository diff for the application commit.
    Cloud Deploy and GitHub are interfaces of functions that may fail. */
module DeployClient {
  import opened Wrappers
  import opened Text
  import opened Patterns
  import opened GitHubTypes
  import opened DeployModels

  const TagsOrg: string := "EverlongProject"
  const TagsRepo: string := "testenv-backend-tags"
  const ServicesRepo: string := "services"

  /** The two Cloud Deploy listings, each of which may fail part-way (an
      iterator error), which fails the whole listing. */
  datatype CloudDeployApi = CloudDeployApi(
    listDeliveryPipelines: string -> Result<seq<string>, ApiError>,
    listReleases: string -> Result<seq<Release>, ApiError>)

  /** `DeployClient`: the services it talks to and the project it queries. */
  datatype Client = Client(cloud: CloudDeployApi, github: GitHubApi, projectID: string, region: string)

  function Parent(projectID: string, region: string): string {
    "projects/" + projectID + "/locations/" + region
  }

  // ---------------------------------------------------------------------
  // Pipelines and releases.

  /** A pipeline serves the test environment when its lower-cased name
      contains "test4". */
  predicate IsTestPipeline(name: string) {
    Contains(ToLowerAscii(name), "test4")
  }

  /** A release is kept when it was created within `[startDate, endDate]`,
      both ends included, and rendered successfully. */
  predicate IsKeptRelease(r: Release, startDate: int, endDate: int) {
    startDate <= r.createTime <= endDate && r.renderState == Succeeded
  }

  function TestPipelines(names: seq<string>): seq<string> {
    if |names| == 0 then []
    else TestPipelines(names[..|names| - 1]) + (if IsTestPipeline(names[|names| - 1]) then [names[|names| - 1]] else [])
  }

  function KeptReleases(rs: seq<Release>, startDate: int, endDate: int): seq<Release> {
    if |rs| == 0 then []
    else KeptReleases(rs[..|rs| - 1], startDate, endDate)
         + (if IsKeptRelease(rs[|rs| - 1], startDate, endDate) then [rs[|rs| - 1]] else [])
  }

  /** The kept releases of each pipeline in turn; the first failed listing
      fails the whole call. */
  function CollectReleases(cloud: CloudDeployApi, pipelines: seq<string>, startDate: int, endDate: int)
    : Result<seq<Release>, DeployError>
  {
    if |pipelines| == 0 then Ok([])
    else match CollectReleases(cloud, pipelines[..|pipelines| - 1], startDate, endDate)
      case Err(e) => Err(e)
      case Ok(acc) =>
        var name := pipelines[|pipelines| - 1];
        match cloud.listReleases(name)
        case Err(_) => Err(ReleaseListFailed(name))
        case Ok(rs) => Ok(acc + KeptReleases(rs, startDate, endDate))
  }

  /** Once a listing fails, the later pipelines change nothing: the first
      failure is the result. */
  lemma {:induction false} CollectReleasesStopsAtError(cloud: CloudDeployApi, pipelines: seq<string>, k: nat,
                                                       startDate: int, endDate: int)
    requires k <= |pipelines|
    requires CollectReleases(cloud, pipelines[..k], startDate, endDate).Err?
    ensures CollectReleases(cloud, pipelines, startDate, endDate) == CollectReleases(cloud, pipelines[..k], startDate, endDate)
    decreases |pipelines|
  {
    if k < |pipelines| {
      var init := pipelines[..|pipelines| - 1];
      assert init[..k] == pipelines[..k];
      CollectReleasesStopsAtError(cloud, init, k, startDate, endDate);
    } else {
      assert pipelines[..k] == pipelines;
    }
  }

  /** `FetchTestEnvironmentReleases`. */
  function FetchReleasesSpec(c: Client, startDate: int, endDate: int): Result<seq<Release>, DeployError> {
    match c.cloud.listDeliveryPipelines(Parent(c.projectID, c.region))
    case Err(_) => Err(PipelineListFailed)
    case Ok(names) =>
      var tests := TestPipelines(names);
      if |tests| == 0 then Err(NoTestPipelines) else CollectReleases(c.cloud, tests, startDate, endDate)
  }

  lemma {:induction false} TestPipelinesMembers(names: seq<string>)
    ensures forall p :: p in TestPipelines(names) <==> p in names && IsTestPipeline(p)
  {
    if |names| > 0 {
      TestPipelinesMembers(names[..|names| - 1]);
      assert names == names[..|names| - 1] + [names[|names| - 1]];
    }
  }

  lemma {:induction false} KeptReleasesMembers(rs: seq<Release>, startDate: int, endDate: int)
    ensures forall r :: r in KeptReleases(rs, startDate, endDate) <==> r in rs && IsKeptRelease(r, startDate, endDate)
  {
    if |rs| > 0 {
      KeptReleasesMembers(rs[..|rs| - 1], startDate, endDate);
      assert rs == rs[..|rs| - 1] + [rs[|rs| - 1]];
    }
  }

  /** Every release collected was listed by a test pipeline, lies in the
      window and rendered successfully. */
  lemma {:induction false} CollectReleasesSound(cloud: CloudDeployApi, pipelines: seq<string>, startDate: int, endDate: int)
    ensures var r := CollectReleases(cloud, pipelines, startDate, endDate);
            r.Ok? ==> forall rel :: rel in r.value ==>
              IsKeptRelease(rel, startDate, endDate)
              && exists i :: 0 <= i < |pipelines| && cloud.listReleases(pipelines[i]).Ok? && rel in cloud.listReleases(pipelines[i]).value
  {
    if |pipelines| > 0 {
      var init := pipelines[..|pipelines| - 1];
      CollectReleasesSound(cloud, init, startDate, endDate);
      var r := CollectReleases(cloud, pipelines, startDate, endDate);
      if r.Ok? {
        var acc := CollectReleases(cloud, init, startDate, endDate).value;
        var last := |pipelines| - 1;
        var rs := cloud.listReleases(pipelines[last]).value;
        KeptReleasesMembers(rs, startDate, endDate);
        forall rel | rel in r.value
          ensures IsKeptRelease(rel, startDate, endDate)
          ensures exists i :: 0 <= i < |pipelines| && cloud.listReleases(pipelines[i]).Ok? && rel in cloud.listReleases(pipelines[i]).value
        {
          if rel in acc {
            var i :| 0 <= i < |init| && cloud.listReleases(init[i]).Ok? && rel in cloud.listReleases(init[i]).value;
            assert pipelines[i] == init[i];
          } else {
            assert rel in KeptReleases(rs, startDate, endDate);
          }
        }
      }
    }
  }

  /** What `FetchTestEnvironmentReleases` promises: an error when no pipeline
      qualifies, and otherwise only releases of test pipelines, created in
      the window and rendered successfully. */
  lemma FetchReleasesSound(c: Client, startDate: int, endDate: int)
    ensures var r := FetchReleasesSpec(c, startDate, endDate);
            var pipes := c.cloud.listDeliveryPipelines(Parent(c.projectID, c.region));
            (pipes.Err? ==> r == Err(PipelineListFailed))
            && (pipes.Ok? && (forall p :: p in pipes.value ==> !IsTestPipeline(p)) ==> r == Err(NoTestPipelines))
            && (r.Ok? ==> forall rel :: rel in r.value ==>
                  IsKeptRelease(rel, startDate, endDate)
                  && exists p :: p in pipes.value && IsTestPipeline(p)
                       && c.cloud.listReleases(p).Ok? && rel in c.cloud.listReleases(p).value)
  {
    var pipes := c.cloud.listDeliveryPipelines(Parent(c.projectID, c.region));
    if pipes.Ok? {
      var tests := TestPipelines(pipes.value);
      TestPipelinesMembers(pipes.value);
      if |tests| > 0 {
        assert tests[0] in tests;
        CollectReleasesSound(c.cloud, tests, startDate, endDate);
        var r := FetchReleasesSpec(c, startDate, endDate);
        if r.Ok? {
          forall rel | rel in r.value
            ensures exists p :: p in pipes.value && IsTestPipeline(p)
                       && c.cloud.listReleases(p).Ok? && rel in c.cloud.listReleases(p).value
          {
            var i :| 0 <= i < |tests| && c.cloud.listReleases(tests[i]).Ok? && rel in c.cloud.listReleases(tests[i]).value;
            assert tests[i] in tests;
          }
        }
      }
    }
  }

  /** Every release a pipeline lists that lies in the window and rendered
      successfully is collected, when the call succeeds. */
  lemma {:induction false} CollectReleasesComplete(cloud: CloudDeployApi, pipelines: seq<string>, startDate: int,
                                                   endDate: int)
    ensures var r := CollectReleases(cloud, pipelines, startDate, endDate);
            r.Ok? ==> forall i, rel :: 0 <= i < |pipelines| && cloud.listReleases(pipelines[i]).Ok?
                        && rel in cloud.listReleases(pipelines[i]).value && IsKeptRelease(rel, startDate, endDate)
                        ==> rel in r.value
  {
    if |pipelines| > 0 {
      var init := pipelines[..|pipelines| - 1];
      CollectReleasesComplete(cloud, init, startDate, endDate);
      var r := CollectReleases(cloud, pipelines, startDate, endDate);
      if r.Ok? {
        var acc := CollectReleases(cloud, init, startDate, endDate).value;
        var rs := cloud.listReleases(pipelines[|pipelines| - 1]).value;
        assert r.value == acc + KeptReleases(rs, startDate, endDate);
        KeptReleasesMembers(rs, startDate, endDate);
        forall i, rel | 0 <= i < |pipelines| && cloud.listReleases(pipelines[i]).Ok?
                        && rel in cloud.listReleases(pipelines[i]).value && IsKeptRelease(rel, startDate, endDate)
          ensures rel in r.value
        {
          if i < |init| {
            assert init[i] == pipelines[i];
            assert rel in acc;
          } else {
            assert rel in KeptReleases(rs, startDate, endDate);
          }
        }
      }
    }
  }

  /** The call succeeds exactly when every pipeline's listing succeeds, and
      otherwise fails naming the first pipeline whose listing failed. */
  lemma {:induction false} CollectReleasesFailsAtFirstError(cloud: CloudDeployApi, pipelines: seq<string>,
                                                            startDate: int, endDate: int)
    ensures var r := CollectReleases(cloud, pipelines, startDate, endDate);
            (r.Ok? <==> forall i :: 0 <= i < |pipelines| ==> cloud.listReleases(pipelines[i]).Ok?)
            && (r.Err? ==> exists i :: 0 <= i < |pipelines| && cloud.listReleases(pipelines[i]).Err?
                             && (forall j :: 0 <= j < i ==> cloud.listReleases(pipelines[j]).Ok?)
                             && r == Err(ReleaseListFailed(pipelines[i])))
  {
    if |pipelines| > 0 {
      var init := pipelines[..|pipelines| - 1];
      var last := |pipelines| - 1;
      CollectReleasesFailsAtFirstError(cloud, init, startDate, endDate);
      var r0 := CollectReleases(cloud, init, startDate, endDate);
      if r0.Err? {
        var i :| 0 <= i < |init| && cloud.listReleases(init[i]).Err?
                 && (forall j :: 0 <= j < i ==> cloud.listReleases(init[j]).Ok?)
                 && r0 == Err(ReleaseListFailed(init[i]));
        assert pipelines[i] == init[i];
        forall j | 0 <= j < i
          ensures cloud.listReleases(pipelines[j]).Ok?
        {
          assert pipelines[j] == init[j];
        }
      } else {
        forall j | 0 <= j < last
          ensures cloud.listReleases(pipelines[j]).Ok?
        {
          assert pipelines[j] == init[j];
        }
      }
    }
  }

  /** The converse of `FetchReleasesSound`: with at least one test pipeline
      whose listings all succeed, the call succeeds and returns every
      release of those pipelines created in the window and rendered
      successfully; a test pipeline whose listing fails fails the call with
      a release-listing error for a test pipeline. */
  lemma FetchReleasesComplete(c: Client, startDate: int, endDate: int)
    ensures var r := FetchReleasesSpec(c, startDate, endDate);
            var pipes := c.cloud.listDeliveryPipelines(Parent(c.projectID, c.region));
            pipes.Ok? ==>
              ((exists p :: p in pipes.value && IsTestPipeline(p))
               && (forall p :: p in pipes.value && IsTestPipeline(p) ==> c.cloud.listReleases(p).Ok?)
               ==> r.Ok?)
              && (r.Ok? ==> forall p, rel :: p in pipes.value && IsTestPipeline(p) && c.cloud.listReleases(p).Ok?
                              && rel in c.cloud.listReleases(p).value && IsKeptRelease(rel, startDate, endDate)
                              ==> rel in r.value)
              && ((exists p :: p in pipes.value && IsTestPipeline(p) && c.cloud.listReleases(p).Err?)
                  ==> r.Err? && r.error.ReleaseListFailed? && r.error.pipeline in pipes.value
                      && IsTestPipeline(r.error.pipeline) && c.cloud.listReleases(r.error.pipeline).Err?)
  {
    var pipes := c.cloud.listDeliveryPipelines(Parent(c.projectID, c.region));
    if pipes.Ok? {
      var tests := TestPipelines(pipes.value);
      TestPipelinesMembers(pipes.value);
      var r := FetchReleasesSpec(c, startDate, endDate);
      CollectReleasesFailsAtFirstError(c.cloud, tests, startDate, endDate);
      CollectReleasesComplete(c.cloud, tests, startDate, endDate);
      if exists p :: p in pipes.value && IsTestPipeline(p) {
        var p :| p in pipes.value && IsTestPipeline(p);
        assert p in tests;
        assert r == CollectReleases(c.cloud, tests, startDate, endDate);
        if forall p :: p in pipes.value && IsTestPipeline(p) ==> c.cloud.listReleases(p).Ok? {
          forall i | 0 <= i < |tests|
            ensures c.cloud.listReleases(tests[i]).Ok?
          {
            assert tests[i] in tests;
          }
        }
        if r.Ok? {
          forall p, rel | p in pipes.value && IsTestPipeline(p) && c.cloud.listReleases(p).Ok?
                          && rel in c.cloud.listReleases(p).value && IsKeptRelease(rel, startDate, endDate)
            ensures rel in r.value
          {
            assert p in tests;
            var i :| 0 <= i < |tests| && tests[i] == p;
          }
        }
        if exists q :: q in pipes.value && IsTestPipeline(q) && c.cloud.listReleases(q).Err? {
          var q :| q in pipes.value && IsTestPipeline(q) && c.cloud.listReleases(q).Err?;
          assert q in tests;
          var k :| 0 <= k < |tests| && tests[k] == q;
          assert r.Err?;
          var i :| 0 <= i < |tests| && c.cloud.listReleases(tests[i]).Err? && r == Err(ReleaseListFailed(tests[i]));
          assert tests[i] in tests;
        }
      }
    }
  }

  /** The pipeline loop: the names that qualify, in listing order. */
  method FilterTestPipelines(names: seq<string>) returns (testPipelines: seq<string>)
    ensures testPipelines == TestPipelines(names)
  {
    testPipelines := [];
    var i := 0;
    while i < |names|
      invariant 0 <= i <= |names|
      invariant testPipelines == TestPipelines(names[..i])
    {
      assert names[..i + 1][..i] == names[..i];
      if Contains(ToLowerAscii(names[i]), "test4") {
        testPipelines := testPipelines + [names[i]];
      }
      i := i + 1;
    }
    assert names[..|names|] == names;
  }

  /** The release loop of one pipeline: the releases that are kept, in
      listing order. */
  method FilterReleases(rs: seq<Release>, startDate: int, endDate: int) returns (kept: seq<Release>)
    ensures kept == KeptReleases(rs, startDate, endDate)
  {
    kept := [];
    var j := 0;
    while j < |rs|
      invariant 0 <= j <= |rs|
      invariant kept == KeptReleases(rs[..j], startDate, endDate)
    {
      assert rs[..j + 1][..j] == rs[..j];
      var release := rs[j];
      if release.createTime < startDate || release.createTime > endDate {
        j := j + 1;
        continue;
      }
      if release.renderState == Succeeded {
        kept := kept + [release];
      }
      j := j + 1;
    }
    assert rs[..|rs|] == rs;
  }

  method FetchTestEnvironmentReleases(c: Client, startDate: int, endDate: int) returns (r: Result<seq<Release>, DeployError>)
    ensures r == FetchReleasesSpec(c, startDate, endDate)
  {
    var listed := c.cloud.listDeliveryPipelines(Parent(c.projectID, c.region));
    if listed.Err? {
      return Err(PipelineListFailed);
    }
    var testPipelines := FilterTestPipelines(listed.value);
    if |testPipelines| == 0 {
      return Err(NoTestPipelines);
    }
    var allReleases := [];
    var p := 0;
    while p < |testPipelines|
      invariant 0 <= p <= |testPipelines|
      invariant CollectReleases(c.cloud, testPipelines[..p], startDate, endDate) == Ok(allReleases)
    {
      assert testPipelines[..p + 1][..p] == testPipelines[..p];
      var pipelineName := testPipelines[p];
      var releases := c.cloud.listReleases(pipelineName);
      if releases.Err? {
        CollectReleasesStopsAtError(c.cloud, testPipelines, p + 1, startDate, endDate);
        return Err(ReleaseListFailed(pipelineName));
      }
      var kept := FilterReleases(releases.value, startDate, endDate);
      allReleases := allReleases + kept;
      p := p + 1;
    }
    assert testPipelines[..|testPipelines|] == testPipelines;
    return Ok(allReleases);
  }

  // ---------------------------------------------------------------------
  // The commit SHA of a release.

  /** The SHA annotation: `git-sha` if present, else the last `/`-separated
      segment of the `commit` URL, else none (""). */
  function AnnotatedSha(annotations: map<string, string>): string {
    if "git-sha" in annotations then annotations["git-sha"]
    else if "commit" in annotations then LastSegment(annotations["commit"], '/')
    else ""
  }

  /** The SHA taken from a `commit` URL is the text after its last '/'. */
  lemma CommitUrlSha(annotations: map<string, string>)
    requires "git-sha" !in annotations && "commit" in annotations
    ensures var url := annotations["commit"];
            var sha := AnnotatedSha(annotations);
            '/' !in sha && exists k :: 0 <= k <= |url| && url[k..] == sha && (k == 0 || url[k - 1] == '/')
  {
    LastSegmentIsSuffix(annotations["commit"], '/');
  }

  /** The application SHA an added line names: the PR-number pattern first,
      then the timestamped-branch pattern. */
  function LineSha(line: string): Option<string> {
    if !StartsWith(line, "+") then None
    else if PullSha(line).Some? then PullSha(line)
    else BranchSha(line)
  }

  /** A SHA found on a line is 7 to 40 lowercase hex characters of that
      line, and the PR-number pattern is preferred. */
  lemma LineShaIsHexCapture(line: string)
    ensures LineSha(line).Some? ==> StartsWith(line, "+")
    ensures StartsWith(line, "+") && PullSha(line).Some? ==> LineSha(line) == PullSha(line)
    ensures LineSha(line).Some? ==> var c := LineSha(line).value;
              7 <= |c| <= 40 && (forall m :: 0 <= m < |c| ==> IsHex(c[m])) && Contains(line, c)
  {
    PullShaIsLeftmostHex(line);
    BranchShaIsLeftmostHex(line);
  }

  function FirstLineSha(lines: seq<string>): Option<string> {
    if |lines| == 0 then None
    else if LineSha(lines[0]).Some? then LineSha(lines[0])
    else FirstLineSha(lines[1..])
  }

  function PatchSha(f: CommitFile): Option<string> {
    if f.patch.Some? then FirstLineSha(Lines(f.patch.value)) else None
  }

  /** The SHA of a diff: the first line, across the files in order, that
      names one. */
  function FilesSha(files: seq<CommitFile>): Option<string> {
    if |files| == 0 then None
    else if PatchSha(files[0]).Some? then PatchSha(files[0])
    else FilesSha(files[1..])
  }

  /** The line search finds nothing iff no line names a SHA, and otherwise
      the SHA of the first line that does. */
  lemma {:induction false} FirstLineShaIsFirst(lines: seq<string>)
    ensures FirstLineSha(lines).None? <==> forall k :: 0 <= k < |lines| ==> LineSha(lines[k]).None?
    ensures FirstLineSha(lines).Some? ==>
              exists k :: 0 <= k < |lines| && LineSha(lines[k]) == FirstLineSha(lines)
                && forall k' :: 0 <= k' < k ==> LineSha(lines[k']).None?
  {
    if |lines| > 0 && LineSha(lines[0]).None? {
      FirstLineShaIsFirst(lines[1..]);
      assert forall k :: 0 < k < |lines| ==> lines[k] == lines[1..][k - 1];
      if FirstLineSha(lines).Some? {
        var k :| 0 <= k < |lines[1..]| && LineSha(lines[1..][k]) == FirstLineSha(lines[1..])
                 && forall k' :: 0 <= k' < k ==> LineSha(lines[1..][k']).None?;
        assert LineSha(lines[k + 1]) == FirstLineSha(lines);
        assert forall k' :: 0 <= k' < k + 1 ==> LineSha(lines[k']).None? by {
          forall k' | 0 < k' < k + 1
            ensures LineSha(lines[k']).None?
          {
            assert lines[k'] == lines[1..][k' - 1];
          }
        }
      }
    }
  }

  /** The same across files: the first file whose patch names a SHA decides. */
  lemma {:induction false} FilesShaIsFirst(files: seq<CommitFile>)
    ensures FilesSha(files).None? <==> forall i :: 0 <= i < |files| ==> PatchSha(files[i]).None?
    ensures FilesSha(files).Some? ==>
              exists i :: 0 <= i < |files| && PatchSha(files[i]) == FilesSha(files)
                && forall i' :: 0 <= i' < i ==> PatchSha(files[i']).None?
  {
    if |files| > 0 && PatchSha(files[0]).None? {
      FilesShaIsFirst(files[1..]);
      assert forall i :: 0 < i < |files| ==> files[i] == files[1..][i - 1];
      if FilesSha(files).Some? {
        var i :| 0 <= i < |files[1..]| && PatchSha(files[1..][i]) == FilesSha(files[1..])
                 && forall i' :: 0 <= i' < i ==> PatchSha(files[1..][i']).None?;
        assert PatchSha(files[i + 1]) == FilesSha(files);
        assert forall i' :: 0 <= i' < i + 1 ==> PatchSha(files[i']).None? by {
          forall i' | 0 < i' < i + 1
            ensures PatchSha(files[i']).None?
          {
            assert files[i'] == files[1..][i' - 1];
          }
        }
      }
    }
  }

  /** Any SHA a diff yields is a 7-to-40 character lowercase hex capture. */
  lemma {:induction false} FilesShaIsHex(files: seq<CommitFile>)
    ensures FilesSha(files).Some? ==> var c := FilesSha(files).value;
              7 <= |c| <= 40 && forall m :: 0 <= m < |c| ==> IsHex(c[m])
  {
    FilesShaIsFirst(files);
    if FilesSha(files).Some? {
      var i :| 0 <= i < |files| && PatchSha(files[i]) == FilesSha(files);
      var lines := Lines(files[i].patch.value);
      FirstLineShaIsFirst(lines);
      var k :| 0 <= k < |lines| && LineSha(lines[k]) == FirstLineSha(lines);
      LineShaIsHexCapture(lines[k]);
    }
  }

  /** The nested scan of `ExtractCommitSHAFromRelease`: "" when no added line
      names a SHA. */
  method ScanDiff(files: seq<CommitFile>) returns (appCommitSha: string)
    ensures appCommitSha == FilesSha(files).GetOr("")
  {
    appCommitSha := "";
    var i := 0;
    while i < |files|
      invariant 0 <= i <= |files|
      invariant appCommitSha == ""
      invariant FilesSha(files) == FilesSha(files[i..])
    {
      assert files[i..][1..] == files[i + 1..];
      if files[i].patch.None? {
        i := i + 1;
        continue;
      }
      var lines := Lines(files[i].patch.value);
      var k := 0;
      while k < |lines|
        invariant 0 <= k <= |lines|
        invariant appCommitSha == ""
        invariant FirstLineSha(lines) == FirstLineSha(lines[k..])
      {
        var line := lines[k];
        assert lines[k..][1..] == lines[k + 1..];
        LineShaIsHexCapture(line);
        if StartsWith(line, "+") {
          var m1 := PullSha(line);
          if m1.Some? {
            appCommitSha := m1.value;
            break;
          }
          var m2 := BranchSha(line);
          if m2.Some? {
            appCommitSha := m2.value;
            break;
          }
        }
        k := k + 1;
      }
      assert (appCommitSha == "" && PatchSha(files[i]).None?)
             || (appCommitSha != "" && PatchSha(files[i]) == Some(appCommitSha));
      if appCommitSha != "" {
        break;
      }
      i := i + 1;
    }
  }

  /** `ExtractCommitSHAFromRelease` as the source file writes it: the
      application commit's SHA and its committer time. */
  function ExtractSpec(c: Client, release: Release): Result<(string, int), DeployError> {
    var sha := AnnotatedSha(release.annotations);
    if sha == "" then Err(NoCommitSha)
    else match c.github.fetchCommit(TagsOrg, TagsRepo, sha)
      case Err(_) => Err(TagsCommitUnavailable)
      case Ok(commit) =>
        if |commit.files| == 0 then Err(NoFilesInDiff)
        else match FilesSha(commit.files)
          case None => Err(NoAppCommitSha)
          case Some(app) =>
            match c.github.fetchCommit(TagsOrg, ServicesRepo, app)
            case Err(_) => Err(ServiceCommitUnavailable)
            case Ok(service) => Ok((app, service.committerDate))
  }

  method ExtractCommitShaFromRelease(c: Client, release: Release) returns (r: Result<(string, int), DeployError>)
    ensures r == ExtractSpec(c, release)
  {
    var commitSha := AnnotatedSha(release.annotations);
    if commitSha == "" {
      return Err(NoCommitSha);
    }
    var commit := c.github.fetchCommit(TagsOrg, TagsRepo, commitSha);
    if commit.Err? {
      return Err(TagsCommitUnavailable);
    }
    var files := commit.value.files;
    if |files| == 0 {
      return Err(NoFilesInDiff);
    }
    var appCommitSha := ScanDiff(files);
    FilesShaIsHex(files);
    if appCommitSha == "" {
      return Err(NoAppCommitSha);
    }
    var service := c.github.fetchCommit(TagsOrg, ServicesRepo, appCommitSha);
    if service.Err? {
      return Err(ServiceCommitUnavailable);
    }
    return Ok((appCommitSha, service.value.committerDate));
  }

  /** A successful extraction names the tags commit the annotation points
      at, and returns the first SHA its diff names, a hex string of 7 to 40
      characters, with the committer time of that services commit. */
  lemma ExtractOk(c: Client, release: Release)
    requires ExtractSpec(c, release).Ok?
    ensures var sha := AnnotatedSha(release.annotations);
            var r := ExtractSpec(c, release).value;
            sha != "" && c.github.fetchCommit(TagsOrg, TagsRepo, sha).Ok?
            && var files := c.github.fetchCommit(TagsOrg, TagsRepo, sha).value.files;
            |files| > 0 && FilesSha(files) == Some(r.0)
            && 7 <= |r.0| <= 40 && (forall m :: 0 <= m < |r.0| ==> IsHex(r.0[m]))
            && c.github.fetchCommit(TagsOrg, ServicesRepo, r.0).Ok?
            && r.1 == c.github.fetchCommit(TagsOrg, ServicesRepo, r.0).value.committerDate
  {
    var sha := AnnotatedSha(release.annotations);
    FilesShaIsHex(c.github.fetchCommit(TagsOrg, TagsRepo, sha).value.files);
  }
}
