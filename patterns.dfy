/** The four regular expressions the tags-repository diffs are searched with,
    written out as recognisers.

    Every pattern starts with `\+\s*\w+:\s*` and continues with runs of
    mutually exclusive character classes (`\s`, `\w`, `\d`, `[^_]`, hex), so at
    any start position a greedy reading is the only one that can succeed and
    RE2's leftmost-first match is: the first start position at which the
    greedy reading succeeds. A trailing `[a-f0-9]{7,40}` takes the longest hex
    run there, cut at 40 characters. */
module Patterns {
  import opened Wrappers
  import opened Text

  /** RE2's `\s`: tab, newline, form feed, carriage return and space. */
  predicate IsSpace(c: char) {
    c == '\t' || c == '\n' || c as int == 12 || c == '\r' || c == ' '
  }

  /** RE2's `\w`. */
  predicate IsWord(c: char) {
    'a' <= c <= 'z' || 'A' <= c <= 'Z' || '0' <= c <= '9' || c == '_'
  }

  /** `[a-f0-9]`. */
  predicate IsHex(c: char) {
    'a' <= c <= 'f' || '0' <= c <= '9'
  }

  predicate NotUnderscore(c: char) { c != '_' }

  /** The end of the longest run of characters satisfying `p` from `i`. */
  function Skip(s: string, i: nat, p: char -> bool): (k: nat)
    requires i <= |s|
    ensures i <= k <= |s|
    ensures forall m :: i <= m < k ==> p(s[m])
    ensures k == |s| || !p(s[k])
    decreases |s| - i
  {
    if i == |s| || !p(s[i]) then i else Skip(s, i + 1, p)
  }

  /** `\+\s*\w+:\s*` read at `j`: the position after it. */
  function Head(s: string, j: nat): (r: Option<nat>)
    ensures r.Some? ==> j < r.value <= |s| && s[j] == '+'
  {
    if j < |s| && s[j] == '+' then
      var a := Skip(s, j + 1, IsSpace);
      var b := Skip(s, a, IsWord);
      if a < b < |s| && s[b] == ':' then Some(Skip(s, b + 1, IsSpace)) else None
    else None
  }

  /** `\d{4}_\d{2}_\d{2}__\d{2}_\d{2}_\d{2}__` at `i`: a 22-character stamp. */
  predicate Stamp(s: string, i: nat) {
    i + 22 <= |s| && StampShape(s[i..i + 22])
  }

  predicate StampShape(t: string) {
    forall m :: 0 <= m < |t| ==> (if m in {4, 7, 10, 11, 14, 17, 20, 21} then t[m] == '_' else IsDigit(t[m]))
  }

  /** `[a-f0-9]{7,40}` at `i`, greedy: the hex run there, cut at 40. */
  function HexCapture(s: string, i: nat): (r: Option<string>)
    requires i <= |s|
    ensures r.Some? ==> 7 <= |r.value| <= 40 && forall m :: 0 <= m < |r.value| ==> IsHex(r.value[m])
    ensures r.Some? ==> HasAt(s, i, r.value)
  {
    var k := Skip(s, i, IsHex);
    if k - i < 7 then None
    else
      var e := if k - i > 40 then i + 40 else k;
      Some(s[i..e])
  }

  /** Seven hex characters at `i` are enough for a capture. */
  lemma HexCaptureOfSeven(s: string, i: nat)
    requires i + 7 <= |s| && forall m :: i <= m < i + 7 ==> IsHex(s[m])
    ensures HexCapture(s, i).Some?
  {
    var k := Skip(s, i, IsHex);
  }

  /** The lines of a patch, split at newline characters. */
  function Lines(patch: string): seq<string> {
    Split(patch, '\n')
  }

  /** The leftmost start position from `j` on at which `at` matches. */
  function FirstMatch(s: string, j: nat, at: (string, nat) -> Option<string>): Option<string>
    decreases |s| + 1 - j
  {
    if j > |s| then None
    else if at(s, j).Some? then at(s, j)
    else FirstMatch(s, j + 1, at)
  }

  /** The search finds nothing iff no position from `j` on matches, and what
      it finds is the match at the leftmost matching position. */
  lemma {:induction false} FirstMatchIsLeftmost(s: string, j: nat, at: (string, nat) -> Option<string>)
    ensures FirstMatch(s, j, at).None? <==> forall k :: j <= k <= |s| ==> at(s, k).None?
    ensures FirstMatch(s, j, at).Some? ==>
              exists k :: j <= k <= |s| && at(s, k) == FirstMatch(s, j, at) && forall i :: j <= i < k ==> at(s, i).None?
    decreases |s| + 1 - j
  {
    if j <= |s| && at(s, j).None? {
      FirstMatchIsLeftmost(s, j + 1, at);
    }
  }

  // ---------------------------------------------------------------------
  // The two patterns of the PR search (`analyzeCommitDiffForPRReference`).
  // Only whether they match matters; the value is the text matched.

  /** The PR literal `pull-<number>_`. */
  function PullLiteral(prNumber: int): string {
    "pull-" + IntToDecimal(prNumber) + "_"
  }

  /** `\+\s*\w+:\s*pull-<number>_[a-f0-9]{7,40}` at `j`. */
  function PRRefAt(s: string, j: nat, prNumber: int): Option<string> {
    match Head(s, j)
    case None => None
    case Some(p) =>
      var lit := PullLiteral(prNumber);
      if HasAt(s, p, lit) then HexCapture(s, p + |lit|) else None
  }

  /** `\+\s*\w+:\s*<stamp><branch>__[a-f0-9]{7,40}` at `j`, the branch quoted. */
  function BranchRefAt(s: string, j: nat, branch: string): Option<string> {
    match Head(s, j)
    case None => None
    case Some(p) =>
      var lit := branch + "__";
      if Stamp(s, p) && HasAt(s, p + 22, lit) then HexCapture(s, p + 22 + |lit|) else None
  }

  predicate MatchesPR(line: string, prNumber: int) {
    FirstMatch(line, 0, (s: string, j: nat) => PRRefAt(s, j, prNumber)).Some?
  }

  predicate MatchesBranch(line: string, branch: string) {
    FirstMatch(line, 0, (s: string, j: nat) => BranchRefAt(s, j, branch)).Some?
  }

  /** The PR pattern matches iff it matches at some position of the line. */
  lemma MatchesPRAnywhere(line: string, prNumber: int)
    ensures MatchesPR(line, prNumber) <==> exists j :: 0 <= j <= |line| && PRRefAt(line, j, prNumber).Some?
  {
    var at := (s: string, j: nat) => PRRefAt(s, j, prNumber);
    FirstMatchIsLeftmost(line, 0, at);
    assert forall j :: at(line, j) == PRRefAt(line, j, prNumber);
  }

  /** The branch pattern matches iff it matches at some position of the line. */
  lemma MatchesBranchAnywhere(line: string, branch: string)
    ensures MatchesBranch(line, branch) <==> exists j :: 0 <= j <= |line| && BranchRefAt(line, j, branch).Some?
  {
    var at := (s: string, j: nat) => BranchRefAt(s, j, branch);
    FirstMatchIsLeftmost(line, 0, at);
    assert forall j :: at(line, j) == BranchRefAt(line, j, branch);
  }

  /** After `pull-` come the decimal and the '_' of the literal. */
  lemma PullLiteralAt(s: string, p: nat, n: int)
    requires HasAt(s, p, PullLiteral(n))
    ensures var d := IntToDecimal(n);
            var t := s[p + 5..];
            |d| < |t| && t[..|d|] == d && t[|d|] == '_'
  {
    var d := IntToDecimal(n);
    var t := s[p + 5..];
    var lit := PullLiteral(n);
    assert |lit| == |d| + 6;
    forall i | 0 <= i <= |d|
      ensures t[i] == lit[5 + i]
    {
      assert t[i] == s[p..p + |lit|][5 + i];
    }
    assert t[..|d|] == d;
  }

  /** A decimal that begins `t` is no longer than one that is ended by '_'. */
  lemma DelimitedDecimalNotLonger(t: string, m: int, n: int)
    requires var d := IntToDecimal(m); |d| <= |t| && t[..|d|] == d
    requires var d := IntToDecimal(n); |d| < |t| && t[|d|] == '_'
    ensures |IntToDecimal(m)| <= |IntToDecimal(n)|
  {
    var dm := IntToDecimal(m);
    forall i | 0 <= i < |dm|
      ensures t[i] != '_'
    {
      assert t[i] == t[..|dm|][i];
      assert i == 0 || IsDigit(dm[i]);
    }
  }

  /** Two decimals at the start of `t`, each ended by '_', are one number. */
  lemma DelimitedDecimalsEqual(t: string, m: int, n: int)
    requires var d := IntToDecimal(m); |d| < |t| && t[..|d|] == d && t[|d|] == '_'
    requires var d := IntToDecimal(n); |d| < |t| && t[..|d|] == d && t[|d|] == '_'
    ensures m == n
  {
    DelimitedDecimalNotLonger(t, m, n);
    DelimitedDecimalNotLonger(t, n, m);
    DecimalInjective(m, n);
  }

  /** At one position the PR pattern holds for one PR number at most: the
      number ends at the first '_' after `pull-`. */
  lemma PRRefDeterminesNumber(s: string, j: nat, m: int, n: int)
    requires PRRefAt(s, j, m).Some? && PRRefAt(s, j, n).Some?
    ensures m == n
  {
    var p := Head(s, j).value;
    assert HasAt(s, p, PullLiteral(m));
    assert HasAt(s, p, PullLiteral(n));
    PullLiteralsEqual(s, p, m, n);
  }

  lemma PullLiteralsEqual(s: string, p: nat, m: int, n: int)
    requires HasAt(s, p, PullLiteral(m)) && HasAt(s, p, PullLiteral(n))
    ensures m == n
  {
    PullLiteralAt(s, p, m);
    PullLiteralAt(s, p, n);
    DelimitedDecimalsEqual(s[p + 5..], m, n);
  }

  // ---------------------------------------------------------------------
  // The two patterns of the release search (`ExtractCommitSHAFromRelease`);
  // the value is the hex capture group.

  /** `\+\s*\w+:\s*pull-\d+_([a-f0-9]{7,40})` at `j`. */
  function PullShaAt(s: string, j: nat): (r: Option<string>)
    ensures r.Some? ==> Contains(s, r.value)
  {
    match Head(s, j)
    case None => None
    case Some(p) =>
      if HasAt(s, p, "pull-") then
        var d := Skip(s, p + 5, IsDigit);
        if p + 5 < d < |s| && s[d] == '_' then HexCapture(s, d + 1) else None
      else None
  }

  /** `\+\s*\w+:\s*<stamp>[^_]+__([a-f0-9]{7,40})` at `j`. */
  function BranchShaAt(s: string, j: nat): (r: Option<string>)
    ensures r.Some? ==> Contains(s, r.value)
  {
    match Head(s, j)
    case None => None
    case Some(p) =>
      if Stamp(s, p) then
        var r := Skip(s, p + 22, NotUnderscore);
        if r > p + 22 && HasAt(s, r, "__") then HexCapture(s, r + 2) else None
      else None
  }

  function PullSha(line: string): Option<string> {
    FirstMatch(line, 0, PullShaAt)
  }

  function BranchSha(line: string): Option<string> {
    FirstMatch(line, 0, BranchShaAt)
  }

  /** What a PR-number tag line yields: the capture of the leftmost match,
      7 to 40 lowercase hex characters taken from the line. */
  lemma PullShaIsLeftmostHex(line: string)
    ensures PullSha(line).None? <==> forall j :: 0 <= j <= |line| ==> PullShaAt(line, j).None?
    ensures PullSha(line).Some? ==>
              exists j :: 0 <= j <= |line| && PullShaAt(line, j) == PullSha(line)
                && forall i :: 0 <= i < j ==> PullShaAt(line, i).None?
    ensures PullSha(line).Some? ==> var c := PullSha(line).value;
              7 <= |c| <= 40 && (forall m :: 0 <= m < |c| ==> IsHex(c[m])) && Contains(line, c)
  {
    FirstMatchIsLeftmost(line, 0, PullShaAt);
  }

  /** The same for a branch tag line. */
  lemma BranchShaIsLeftmostHex(line: string)
    ensures BranchSha(line).None? <==> forall j :: 0 <= j <= |line| ==> BranchShaAt(line, j).None?
    ensures BranchSha(line).Some? ==>
              exists j :: 0 <= j <= |line| && BranchShaAt(line, j) == BranchSha(line)
                && forall i :: 0 <= i < j ==> BranchShaAt(line, i).None?
    ensures BranchSha(line).Some? ==> var c := BranchSha(line).value;
              7 <= |c| <= 40 && (forall m :: 0 <= m < |c| ==> IsHex(c[m])) && Contains(line, c)
  {
    FirstMatchIsLeftmost(line, 0, BranchShaAt);
  }

  // ---------------------------------------------------------------------
  // Sample lines.

  /** A tag line of a test of the source. */
  const PRSample: string := "+app2: pull-123_abc123def456"

  lemma PRSampleOnePlus()
    ensures forall j :: 1 <= j < |PRSample| ==> PRSample[j] != '+'
  {
  }

  lemma PRSampleHead()
    ensures Head(PRSample, 0) == Some(7)
  {
    var s := PRSample;
    assert Skip(s, 1, IsSpace) == 1;
    assert Skip(s, 5, IsWord) == 5;
    assert Skip(s, 6, IsSpace) == 7;
  }

  lemma PullLiteral123()
    ensures PullLiteral(123) == "pull-123_"
  {
    assert NatToDecimal(1) == "1";
    assert NatToDecimal(12) == "12";
  }

  lemma PRSampleLiteral()
    ensures HasAt(PRSample, 7, PullLiteral(123))
  {
    PullLiteral123();
  }

  lemma PRSampleHex()
    ensures HexCapture(PRSample, 16).Some?
  {
    assert forall m :: 16 <= m < 23 ==> IsHex(PRSample[m]);
    HexCaptureOfSeven(PRSample, 16);
  }

  lemma PRSampleRefersTo123()
    ensures PRRefAt(PRSample, 0, 123).Some?
  {
    PRSampleHead();
    PRSampleLiteral();
    PullLiteral123();
    PRSampleHex();
  }

  /** No position of the sample line starts a reference to PR 999. */
  lemma PRSampleNot999(j: nat)
    requires j <= |PRSample|
    ensures PRRefAt(PRSample, j, 999).None?
  {
    if PRRefAt(PRSample, j, 999).Some? {
      PRSampleOnePlus();
      PRSampleRefersTo123();
      assert PRSample[j] == '+';
      PRRefDeterminesNumber(PRSample, 0, 123, 999);
    }
  }

  /** The line `+app2: pull-123_abc123def456` refers to PR 123 and not to PR 999. */
  lemma PRLineExample()
    ensures MatchesPR(PRSample, 123)
    ensures !MatchesPR(PRSample, 999)
  {
    PRSampleRefersTo123();
    forall j | 0 <= j <= |PRSample|
      ensures PRRefAt(PRSample, j, 999).None?
    {
      PRSampleNot999(j);
    }
    MatchesPRAnywhere(PRSample, 123);
    MatchesPRAnywhere(PRSample, 999);
  }

  /** The branch tag line of a test of the source. */
  const BranchSample: string := "+app2: " + BranchSampleStampText + "feature-branch__" + "abc123def456"

  const BranchSampleStampText: string := "2024_01_15__14_30_45__"

  lemma BranchSampleOnePlus()
    ensures forall j :: 1 <= j < |BranchSample| ==> BranchSample[j] != '+'
  {
  }

  lemma BranchSampleHead()
    ensures Head(BranchSample, 0) == Some(7)
  {
    var s := BranchSample;
    assert Skip(s, 1, IsSpace) == 1;
    assert Skip(s, 5, IsWord) == 5;
    assert Skip(s, 6, IsSpace) == 7;
  }

  lemma BranchSampleStamp()
    ensures Stamp(BranchSample, 7)
  {
    assert BranchSample[7..29] == BranchSampleStampText;
  }

  lemma BranchSampleHex()
    ensures HexCapture(BranchSample, 45).Some?
  {
    assert forall m :: 45 <= m < 52 ==> IsHex(BranchSample[m]);
    HexCaptureOfSeven(BranchSample, 45);
  }

  lemma BranchSampleRefersToFeature()
    ensures BranchRefAt(BranchSample, 0, "feature-branch").Some?
  {
    BranchSampleHead();
    BranchSampleStamp();
    assert HasAt(BranchSample, 29, "feature-branch__");
    BranchSampleHex();
  }

  /** No position of the sample line starts a reference to branch `main`:
      the only '+' is at 0, and the stamp there is followed by `feature`. */
  lemma BranchSampleNotMain(j: nat)
    requires j <= |BranchSample|
    ensures BranchRefAt(BranchSample, j, "main").None?
  {
    BranchSampleOnePlus();
    if j == 0 {
      BranchSampleHead();
      assert BranchSample[29] == 'f';
      assert !HasAt(BranchSample, 29, "main__");
    }
  }

  /** The line `+app2: 2024_01_15__14_30_45__feature-branch__abc123def456`
      refers to branch `feature-branch` and not to branch `main`. */
  lemma BranchLineExample()
    ensures MatchesBranch(BranchSample, "feature-branch")
    ensures !MatchesBranch(BranchSample, "main")
  {
    BranchSampleRefersToFeature();
    forall j | 0 <= j <= |BranchSample|
      ensures BranchRefAt(BranchSample, j, "main").None?
    {
      BranchSampleNotMain(j);
    }
    MatchesBranchAnywhere(BranchSample, "feature-branch");
    MatchesBranchAnywhere(BranchSample, "main");
  }
}
