/** The cache entry envelope with its expiry rule, and the builder of the
    cache keys, `prefix:field1:field2:...`, one fixed field list per resource. */
module Cache {
  import opened Wrappers
  import opened Text
  import opened Times

  /** A stored value with its metadata; no `expiresAt` means it never expires. */
  datatype Entry = Entry(data: string, expiresAt: Option<int>, createdAt: int)

  /** `Entry.IsExpired` with the clock read made explicit. */
  predicate IsExpired(e: Entry, now: int) {
    e.expiresAt.Some? && now > e.expiresAt.value
  }

  /** An entry without a deadline outlives every clock reading; one with a
      deadline is still live at the deadline itself and expired right after. */
  lemma ExpiryAtDeadline(e: Entry, now: int)
    ensures e.expiresAt.None? ==> !IsExpired(e, now)
    ensures e.expiresAt.Some? ==> (IsExpired(e, now) <==> now > e.expiresAt.value)
    ensures e.expiresAt.Some? ==> !IsExpired(e, e.expiresAt.value) && IsExpired(e, e.expiresAt.value + 1)
  {
  }

  /** One argument of `buildKey`: the source passes strings and ints. */
  datatype KeyPart = Str(s: string) | Int(n: int)

  /** `toString`: a string is kept as it is and an int is rendered in decimal,
      so that the rendering can be read back. */
  function ToString(p: KeyPart): (r: string)
    ensures p.Str? ==> r == p.s
    ensures p.Int? ==> ParseInt(r) == Some(p.n)
  {
    match p
    case Str(s) => s
    case Int(n) => ParseIntOfDecimal(n); IntToDecimal(n)
  }

  /** The key `buildKey` builds: the prefix, then ":" and each part in turn. */
  function KeyOf(prefix: string, parts: seq<KeyPart>): string
  {
    if |parts| == 0 then prefix
    else KeyOf(prefix, parts[..|parts| - 1]) + ":" + ToString(parts[|parts| - 1])
  }

  /** The separators and rendered parts after the prefix, read left to right. */
  function Fields(parts: seq<KeyPart>): string
  {
    if |parts| == 0 then "" else ":" + ToString(parts[0]) + Fields(parts[1..])
  }

  lemma {:induction false} FieldsAppend(parts: seq<KeyPart>, p: KeyPart)
    ensures Fields(parts + [p]) == Fields(parts) + ":" + ToString(p)
  {
    if |parts| > 0 {
      assert (parts + [p])[1..] == parts[1..] + [p];
      FieldsAppend(parts[1..], p);
    } else {
      assert [p][1..] == [];
    }
  }

  /** The key is the prefix followed by ":" and the rendering of every part,
      in argument order. */
  lemma {:induction false} KeyIsPrefixThenFields(prefix: string, parts: seq<KeyPart>)
    ensures KeyOf(prefix, parts) == prefix + Fields(parts)
  {
    if |parts| > 0 {
      var init := parts[..|parts| - 1];
      KeyIsPrefixThenFields(prefix, init);
      FieldsAppend(init, parts[|parts| - 1]);
      assert init + [parts[|parts| - 1]] == parts;
    }
  }

  /** `buildKey`: appends ":" and each rendered part to the prefix, in a loop. */
  method BuildKey(prefix: string, parts: seq<KeyPart>) returns (key: string)
    ensures key == prefix + Fields(parts)
  {
    key := prefix;
    var i := 0;
    while i < |parts|
      invariant 0 <= i <= |parts|
      invariant key == KeyOf(prefix, parts[..i])
    {
      assert parts[..i + 1][..i] == parts[..i];
      key := key + ":" + ToString(parts[i]);
      i := i + 1;
    }
    assert parts[..|parts|] == parts;
    KeyIsPrefixThenFields(prefix, parts);
  }

  /** `CacheKeyBuilder`: every key of one client starts with its prefix. */
  datatype KeyBuilder = KeyBuilder(prefix: string) {

    function PRKey(owner: string, repo: string, prNumber: int): string {
      KeyOf(prefix, [Str("pr"), Str(owner), Str(repo), Int(prNumber)])
    }

    function PRReviewsKey(owner: string, repo: string, prNumber: int): string {
      KeyOf(prefix, [Str("pr_reviews"), Str(owner), Str(repo), Int(prNumber)])
    }

    function PRsListKey(owner: string, repo: string, startDate: int, endDate: int): string {
      KeyOf(prefix, [Str("prs_list"), Str(owner), Str(repo),
                     Str(FormatDate(startDate)), Str(FormatDate(endDate))])
    }

    function ReleaseKey(projectID: string, region: string, releaseName: string): string {
      KeyOf(prefix, [Str("release"), Str(projectID), Str(region), Str(releaseName)])
    }

    function RolloutsKey(projectID: string, region: string, releaseName: string): string {
      KeyOf(prefix, [Str("rollouts"), Str(projectID), Str(region), Str(releaseName)])
    }

    function ReleasesListKey(projectID: string, region: string, pipeline: string,
                             startDate: int, endDate: int): string {
      KeyOf(prefix, [Str("releases_list"), Str(projectID), Str(region), Str(pipeline),
                     Str(FormatDate(startDate)), Str(FormatDate(endDate))])
    }

    function FlakyTestsKey(org: string, repo: string): string {
      KeyOf(prefix, [Str("flaky-tests"), Str(org), Str(repo)])
    }
  }

  /** The key of a resource begins with the prefix, ":" and the resource-type literal. */
  lemma KeyStartsWithLiteral(prefix: string, literal: string, rest: seq<KeyPart>)
    ensures KeyOf(prefix, [Str(literal)] + rest) == prefix + ":" + literal + Fields(rest)
  {
    KeyIsPrefixThenFields(prefix, [Str(literal)] + rest);
    assert ([Str(literal)] + rest)[1..] == rest;
  }

  /** A PR record and a PR's review list never share a key, whatever the
      arguments: after the prefix the literals "pr" and "pr_reviews" differ at
      their third character. */
  lemma PRKeyNeverReviewsKey(kb: KeyBuilder, owner: string, repo: string, n: int,
                             owner': string, repo': string, n': int)
    ensures kb.PRKey(owner, repo, n) != kb.PRReviewsKey(owner', repo', n')
  {
    var p := kb.prefix;
    var rest := [Str(owner), Str(repo), Int(n)];
    var rest' := [Str(owner'), Str(repo'), Int(n')];
    assert [Str("pr"), Str(owner), Str(repo), Int(n)] == [Str("pr")] + rest;
    assert [Str("pr_reviews"), Str(owner'), Str(repo'), Int(n')] == [Str("pr_reviews")] + rest';
    KeyStartsWithLiteral(p, "pr", rest);
    KeyStartsWithLiteral(p, "pr_reviews", rest');
    var k := kb.PRKey(owner, repo, n);
    var k' := kb.PRReviewsKey(owner', repo', n');
    assert Fields(rest)[0] == ':';
    assert k[|p| + 3] == ':';
    assert k'[|p| + 3] == '_';
  }

  /** A PR record and a PR list never share a key: after the prefix the
      literals "pr" and "prs_list" differ at their third character. */
  lemma PRKeyNeverListKey(kb: KeyBuilder, owner: string, repo: string, n: int,
                          owner': string, repo': string, startDate: int, endDate: int)
    ensures kb.PRKey(owner, repo, n) != kb.PRsListKey(owner', repo', startDate, endDate)
  {
    var p := kb.prefix;
    var rest := [Str(owner), Str(repo), Int(n)];
    var rest' := [Str(owner'), Str(repo'), Str(FormatDate(startDate)), Str(FormatDate(endDate))];
    assert [Str("pr"), Str(owner), Str(repo), Int(n)] == [Str("pr")] + rest;
    assert [Str("prs_list"), Str(owner'), Str(repo'), Str(FormatDate(startDate)), Str(FormatDate(endDate))]
           == [Str("prs_list")] + rest';
    KeyStartsWithLiteral(p, "pr", rest);
    KeyStartsWithLiteral(p, "prs_list", rest');
    var k := kb.PRKey(owner, repo, n);
    var k' := kb.PRsListKey(owner', repo', startDate, endDate);
    assert Fields(rest)[0] == ':';
    assert k[|p| + 3] == ':';
    assert k'[|p| + 3] == 's';
  }

  /** A release record and a release's rollout finish time never share a key:
      "release" and "rollouts" differ at their second character. */
  lemma ReleaseKeyNeverRolloutsKey(kb: KeyBuilder, project: string, region: string, name: string,
                                   project': string, region': string, name': string)
    ensures kb.ReleaseKey(project, region, name) != kb.RolloutsKey(project', region', name')
  {
    var p := kb.prefix;
    var rest := [Str(project), Str(region), Str(name)];
    var rest' := [Str(project'), Str(region'), Str(name')];
    assert [Str("release"), Str(project), Str(region), Str(name)] == [Str("release")] + rest;
    assert [Str("rollouts"), Str(project'), Str(region'), Str(name')] == [Str("rollouts")] + rest';
    KeyStartsWithLiteral(p, "release", rest);
    KeyStartsWithLiteral(p, "rollouts", rest');
    assert kb.ReleaseKey(project, region, name)[|p| + 2] == 'e';
    assert kb.RolloutsKey(project', region', name')[|p| + 2] == 'o';
  }

  /** Distinct PR numbers of one repository never share a PR or review key. */
  lemma PRKeyInjective(kb: KeyBuilder, owner: string, repo: string, m: int, n: int)
    ensures kb.PRKey(owner, repo, m) == kb.PRKey(owner, repo, n) ==> m == n
    ensures kb.PRReviewsKey(owner, repo, m) == kb.PRReviewsKey(owner, repo, n) ==> m == n
  {
    var head := [Str("pr"), Str(owner), Str(repo)];
    var head' := [Str("pr_reviews"), Str(owner), Str(repo)];
    var base := KeyOf(kb.prefix, head);
    var base' := KeyOf(kb.prefix, head');
    forall x: int
      ensures kb.PRKey(owner, repo, x) == base + ":" + IntToDecimal(x)
      ensures kb.PRReviewsKey(owner, repo, x) == base' + ":" + IntToDecimal(x)
    {
      assert [Str("pr"), Str(owner), Str(repo), Int(x)] == head + [Int(x)];
      assert (head + [Int(x)])[..3] == head;
      assert [Str("pr_reviews"), Str(owner), Str(repo), Int(x)] == head' + [Int(x)];
      assert (head' + [Int(x)])[..3] == head';
    }
    if kb.PRKey(owner, repo, m) == kb.PRKey(owner, repo, n) {
      assert IntToDecimal(m) == (base + ":" + IntToDecimal(m))[|base| + 1..];
      assert IntToDecimal(n) == (base + ":" + IntToDecimal(n))[|base| + 1..];
      DecimalInjective(m, n);
    }
    if kb.PRReviewsKey(owner, repo, m) == kb.PRReviewsKey(owner, repo, n) {
      assert IntToDecimal(m) == (base' + ":" + IntToDecimal(m))[|base'| + 1..];
      assert IntToDecimal(n) == (base' + ":" + IntToDecimal(n))[|base'| + 1..];
      DecimalInjective(m, n);
    }
  }

  /** List keys carry only the calendar days of their dates: two queries whose
      bounds fall on the same days share a cache entry. */
  lemma ListKeysDependOnlyOnDays(kb: KeyBuilder, owner: string, repo: string, pipeline: string,
                                 s1: int, e1: int, s2: int, e2: int)
    requires DayOf(s1) == DayOf(s2) && DayOf(e1) == DayOf(e2)
    ensures kb.PRsListKey(owner, repo, s1, e1) == kb.PRsListKey(owner, repo, s2, e2)
    ensures kb.ReleasesListKey(owner, repo, pipeline, s1, e1) == kb.ReleasesListKey(owner, repo, pipeline, s2, e2)
  {
  }
}
