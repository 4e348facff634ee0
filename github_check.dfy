/** The README check over a GitHub repository URL (githubCheck.ts).

    `extractGitHubRepoInfo` runs the regular expression
    `github.com\/(.+?)\/(.+?)(\/|$)` (no flags) over the URL. The model gives
    the regular expression's meaning declaratively (which start position and
    group lengths form a match, and which match JavaScript's backtracking
    picks: the leftmost start, then the shortest owner, then the shortest repo)
    and a search function that is proved to return exactly that match. */
module GithubCheck {
  import opened Wrappers
  import opened Types

  /** Characters that `.` does not match when the `s` flag is absent. */
  predicate IsLineTerminator(c: char) {
    c == '\n' || c == '\r' || c == '\U{2028}' || c == '\U{2029}'
  }

  /** `.+?` may consume every character of `s[a..b]`. */
  predicate NoLineTerminator(s: string, a: nat, b: nat)
    requires a <= b <= |s|
  {
    forall t :: a <= t < b ==> !IsLineTerminator(s[t])
  }

  /** Length of the literal part `github.com/`. */
  const HostLength: nat := 11

  /** Without the `u` flag, JavaScript matches a pattern against UTF-16 code
      units: a character outside the Basic Multilingual Plane is two units. */
  predicate IsOneCodeUnit(c: char) {
    (c as int) < 0x1_0000
  }

  /** `github.com\/` matches at `i`. Its `.` is unescaped: it matches one code
      unit that is not a line terminator, so an astral character (two units)
      leaves `c` facing its low surrogate and cannot stand for it. The groups
      need no such condition, because `/` and the end of input never fall
      inside a surrogate pair. */
  predicate HostAt(s: string, i: nat) {
    i + HostLength <= |s| &&
    s[i..i + 6] == "github" && !IsLineTerminator(s[i + 6]) && IsOneCodeUnit(s[i + 6]) &&
    s[i + 7..i + 10] == "com" && s[i + 10] == '/'
  }

  /** `(.+?)\/` matches at `o` with a first group of length `k1`. */
  predicate OwnerAt(s: string, o: nat, k1: nat) {
    1 <= k1 && o + k1 < |s| && NoLineTerminator(s, o, o + k1) && s[o + k1] == '/'
  }

  /** `(.+?)(\/|$)` matches at `p` with a second group of length `k2`. */
  predicate RepoAt(s: string, p: nat, k2: nat) {
    1 <= k2 && p + k2 <= |s| && NoLineTerminator(s, p, p + k2) &&
    (p + k2 == |s| || s[p + k2] == '/')
  }

  /** Both groups and the separating slash match from `o`. */
  predicate GroupsAt(s: string, o: nat, k1: nat, k2: nat) {
    OwnerAt(s, o, k1) && RepoAt(s, o + k1 + 1, k2)
  }

  /** A match of the whole pattern: where it starts and how long each group is. */
  datatype Match = Match(start: nat, ownerLen: nat, repoLen: nat)

  predicate IsMatch(s: string, m: Match) {
    HostAt(s, m.start) && GroupsAt(s, m.start + HostLength, m.ownerLen, m.repoLen)
  }

  /** The order in which a backtracking matcher tries matches: start positions
      left to right, then lazy groups shortest first, the owner before the repo. */
  predicate Precedes(m: Match, n: Match) {
    m.start < n.start ||
    (m.start == n.start && m.ownerLen < n.ownerLen) ||
    (m.start == n.start && m.ownerLen == n.ownerLen && m.repoLen <= n.repoLen)
  }

  /** The match `String.prototype.match` reports: the first one tried. */
  ghost predicate IsFirstMatch(s: string, m: Match) {
    IsMatch(s, m) && forall n :: IsMatch(s, n) ==> Precedes(m, n)
  }

  /** Tries repo lengths `k`, `k + 1`, ... from `p`, as the lazy group does. */
  function TryRepo(s: string, p: nat, k: nat): (r: Option<nat>)
    requires 1 <= k && p + k - 1 <= |s| && NoLineTerminator(s, p, p + k - 1)
    ensures r.Some? ==> k <= r.value && RepoAt(s, p, r.value)
    ensures r.Some? ==> forall k2 :: k <= k2 < r.value ==> !RepoAt(s, p, k2)
    ensures r.None? ==> forall k2 :: k <= k2 ==> !RepoAt(s, p, k2)
    decreases |s| + 1 - (p + k)
  {
    if p + k > |s| then None
    else if IsLineTerminator(s[p + k - 1]) then None
    else if p + k == |s| || s[p + k] == '/' then Some(k)
    else TryRepo(s, p, k + 1)
  }

  /** Tries owner lengths `k`, `k + 1`, ... from `o`; for each owner that is
      followed by a slash, the repo group must match too, otherwise the
      matcher backtracks into a longer owner. */
  function TryOwner(s: string, o: nat, k: nat): (r: Option<(nat, nat)>)
    requires 1 <= k && o + k - 1 <= |s| && NoLineTerminator(s, o, o + k - 1)
    ensures r.Some? ==> k <= r.value.0 && GroupsAt(s, o, r.value.0, r.value.1)
    ensures r.Some? ==> forall k1, k2 :: k <= k1 < r.value.0 ==> !GroupsAt(s, o, k1, k2)
    ensures r.Some? ==> forall k2 :: 1 <= k2 < r.value.1 ==> !GroupsAt(s, o, r.value.0, k2)
    ensures r.None? ==> forall k1, k2 :: k <= k1 ==> !GroupsAt(s, o, k1, k2)
    decreases |s| + 1 - (o + k)
  {
    if o + k >= |s| then None
    else if IsLineTerminator(s[o + k - 1]) then None
    else if s[o + k] == '/' && TryRepo(s, o + k + 1, 1).Some? then
      Some((k, TryRepo(s, o + k + 1, 1).value))
    else TryOwner(s, o, k + 1)
  }

  /** Tries start positions `i`, `i + 1`, ... and returns the first match. */
  function MatchFrom(s: string, i: nat): (r: Option<Match>)
    ensures r.Some? ==> i <= r.value.start && IsMatch(s, r.value)
    ensures r.Some? ==> forall n :: IsMatch(s, n) && i <= n.start ==> Precedes(r.value, n)
    ensures r.None? ==> forall n :: IsMatch(s, n) ==> n.start < i
    decreases |s| - i
  {
    if i + HostLength > |s| then None
    else if HostAt(s, i) && TryOwner(s, i + HostLength, 1).Some? then
      var g := TryOwner(s, i + HostLength, 1).value;
      Some(Match(i, g.0, g.1))
    else MatchFrom(s, i + 1)
  }

  /** The object `{ owner, repo }` built from the two capture groups. */
  datatype RepoInfo = RepoInfo(owner: string, repo: string)

  /** The text the match consumed, from the host on: the two groups are the
      pieces around the slash that follows the owner. */
  function GroupsOf(s: string, m: Match): (r: RepoInfo)
    requires IsMatch(s, m)
    ensures |r.owner| == m.ownerLen >= 1 && |r.repo| == m.repoLen >= 1
    ensures var o := m.start + HostLength;
      s[o..o + m.ownerLen + 1 + m.repoLen] == r.owner + "/" + r.repo
    ensures forall t :: 0 <= t < |r.owner| ==> !IsLineTerminator(r.owner[t])
    ensures forall t :: 0 <= t < |r.repo| ==> !IsLineTerminator(r.repo[t])
  {
    var o := m.start + HostLength;
    var p := o + m.ownerLen + 1;
    RepoInfo(s[o..o + m.ownerLen], s[p..p + m.repoLen])
  }

  /** `extractGitHubRepoInfo`: `null` when the pattern does not match anywhere,
      otherwise the groups of the first match in backtracking order. */
  function ExtractGitHubRepoInfo(repoUrl: string): (r: Option<RepoInfo>)
    ensures r.None? <==> forall m :: !IsMatch(repoUrl, m)
    ensures r.Some? ==> exists m :: IsFirstMatch(repoUrl, m) && r.value == GroupsOf(repoUrl, m)
    ensures r.Some? ==> r.value.owner != "" && r.value.repo != ""
  {
    match MatchFrom(repoUrl, 0)
    case None => None
    case Some(m) => Some(GroupsOf(repoUrl, m))
  }

  /** What a match spells: `github`, one character that is not a line
      terminator, `com/`, the owner, a slash and the repo, followed by a slash
      or by the end of the URL; neither group holds a line terminator. */
  lemma MatchSpellsPattern(s: string, m: Match)
    requires IsMatch(s, m)
    ensures var info := GroupsOf(s, m);
      var e := m.start + HostLength + m.ownerLen + 1 + m.repoLen;
      e <= |s| &&
      s[m.start..e] == "github" + [s[m.start + 6]] + "com/" + info.owner + "/" + info.repo &&
      !IsLineTerminator(s[m.start + 6]) &&
      (e == |s| || s[e] == '/')
  {
    var info := GroupsOf(s, m);
    var i := m.start;
    var o := i + HostLength;
    var e := o + m.ownerLen + 1 + m.repoLen;
    assert s[i..e] == s[i..i + 6] + [s[i + 6]] + s[i + 7..i + 10] + [s[i + 10]] + s[o..e];
  }

  /** At most one match is the first one: the backtracking order is total
      and antisymmetric. */
  lemma FirstMatchIsUnique(s: string, m: Match, n: Match)
    requires IsFirstMatch(s, m) && IsFirstMatch(s, n)
    ensures m == n
  {
  }

  /** The first match is unique, so it determines the extracted groups. */
  lemma ExtractFromFirstMatch(s: string, m: Match)
    requires IsFirstMatch(s, m)
    ensures ExtractGitHubRepoInfo(s) == Some(GroupsOf(s, m))
  {
    var r := MatchFrom(s, 0);
    assert r.Some?;
    assert Precedes(m, r.value) && Precedes(r.value, m);
    assert r.value == m;
  }

  /** A match whose owner contains a slash after its first character has a
      rival that ends the owner at that slash: the rest of the owner, the
      slash and the repo, or the rest of the owner alone, form a repo group. */
  lemma ShorterOwnerCompletes(s: string, m: Match, j: nat) returns (k2: nat)
    requires IsMatch(s, m)
    requires 1 <= j < m.ownerLen && s[m.start + HostLength + j] == '/'
    ensures IsMatch(s, Match(m.start, j, k2))
  {
    var o := m.start + HostLength;
    var p' := o + j + 1;
    k2 := if p' < o + m.ownerLen then o + m.ownerLen - p' else 1 + m.repoLen;
    assert RepoAt(s, p', k2);
  }

  /** In the first match, no slash follows the owner's first character. */
  lemma FirstOwnerHasNoInnerSlash(s: string, m: Match, j: nat)
    requires IsFirstMatch(s, m) && 1 <= j < m.ownerLen
    ensures s[m.start + HostLength + j] != '/'
  {
    if s[m.start + HostLength + j] == '/' {
      var k2 := ShorterOwnerCompletes(s, m, j);
    }
  }

  /** In the first match, no slash follows the repo's first character. */
  lemma FirstRepoHasNoInnerSlash(s: string, m: Match, j: nat)
    requires IsFirstMatch(s, m) && 1 <= j < m.repoLen
    ensures s[m.start + HostLength + m.ownerLen + 1 + j] != '/'
  {
    var rival := Match(m.start, m.ownerLen, j);
    assert !Precedes(m, rival);
    assert !IsMatch(s, rival);
  }

  /** The groups of the first match hold no slash after their first character. */
  lemma FirstMatchGroupsStop(s: string, m: Match)
    requires IsFirstMatch(s, m)
    ensures var info := GroupsOf(s, m);
      (forall j :: 1 <= j < |info.owner| ==> info.owner[j] != '/') &&
      (forall j :: 1 <= j < |info.repo| ==> info.repo[j] != '/')
  {
    var info := GroupsOf(s, m);
    var o := m.start + HostLength;
    var p := o + m.ownerLen + 1;
    forall j | 1 <= j < |info.owner|
      ensures info.owner[j] != '/'
    {
      assert info.owner[j] == s[o + j];
      FirstOwnerHasNoInnerSlash(s, m, j);
    }
    forall j | 1 <= j < |info.repo|
      ensures info.repo[j] != '/'
    {
      assert info.repo[j] == s[p + j];
      FirstRepoHasNoInnerSlash(s, m, j);
    }
  }

  /** The groups end where the source's doc comment expects: the owner at the
      first slash after its first character, the repo at the next slash or at
      the end of the URL. */
  lemma GroupsStopAtFirstSlash(repoUrl: string)
    requires ExtractGitHubRepoInfo(repoUrl).Some?
    ensures var info := ExtractGitHubRepoInfo(repoUrl).value;
      (forall j :: 1 <= j < |info.owner| ==> info.owner[j] != '/') &&
      (forall j :: 1 <= j < |info.repo| ==> info.repo[j] != '/')
  {
    var m := MatchFrom(repoUrl, 0).value;
    assert IsFirstMatch(repoUrl, m);
    ExtractFromFirstMatch(repoUrl, m);
    FirstMatchGroupsStop(repoUrl, m);
  }

  /** The URL of the source's doc comment. It is built with `+` so that the
      verifier can evaluate its slices, which it does not do for one literal. */
  const DocCommentUrl: string := "url:https://" + "github.com/" + "backstage" + "/" + "backstage" + "/tree/master/"

  lemma DocCommentMatch()
    ensures IsMatch(DocCommentUrl, Match(12, 9, 9))
  {
  }

  /** No match of the doc comment's URL starts before 12: no `g` comes earlier. */
  lemma DocCommentStart(n: Match)
    requires IsMatch(DocCommentUrl, n)
    ensures 12 <= n.start
  {
    var s := DocCommentUrl;
    assert s[..12] == "url:https://";
    assert s[n.start..n.start + 6][0] == s[n.start] == 'g';
    assert 'g' !in s[..12];
    assert forall t :: 0 <= t < 12 ==> s[t] in s[..12];
  }

  /** A match at 12 has an owner of at least 9: `backstage` holds no slash. */
  lemma DocCommentOwner(n: Match)
    requires IsMatch(DocCommentUrl, n) && n.start == 12
    ensures 9 <= n.ownerLen
  {
  }

  /** A match at 12 with an owner of 9 has a repo of at least 9. */
  lemma DocCommentRepo(n: Match)
    requires IsMatch(DocCommentUrl, n) && n.start == 12 && n.ownerLen == 9
    ensures 9 <= n.repoLen
  {
  }

  /** The example in the source's doc comment. */
  lemma DocCommentExample()
    ensures ExtractGitHubRepoInfo(DocCommentUrl) == Some(RepoInfo("backstage", "backstage"))
  {
    DocCommentMatch();
    forall n | IsMatch(DocCommentUrl, n) ensures Precedes(Match(12, 9, 9), n) {
      DocCommentStart(n);
      if n.start == 12 {
        DocCommentOwner(n);
        if n.ownerLen == 9 {
          DocCommentRepo(n);
        }
      }
    }
    ExtractFromFirstMatch(DocCommentUrl, Match(12, 9, 9));
    assert GroupsOf(DocCommentUrl, Match(12, 9, 9)) == RepoInfo(DocCommentUrl[23..32], DocCommentUrl[33..42]);
    assert DocCommentUrl[23..32] == "backstage" && DocCommentUrl[33..42] == "backstage";
  }

  /** The unescaped `.` in `github.com` accepts any character there. */
  lemma UnescapedDotMatchesAnyCharacter()
    ensures ExtractGitHubRepoInfo("githubXcom/a/b") == Some(RepoInfo("a", "b"))
  {
    var s := "githubXcom/a/b";
    var first := Match(0, 1, 1);
    assert s[0..6] == "github";
    assert s[7..10] == "com";
    assert IsMatch(s, first);
    ExtractFromFirstMatch(s, first);
    assert s[11..12] == "a" && s[13..14] == "b";
  }

  /** The URL with an astral character where the unescaped `.` stands,
      built with `+` so that the verifier can evaluate its slices. */
  const AstralHostUrl: string := "github" + "\U{1F600}" + "com/a/b"

  /** The `.` takes only the high surrogate of an astral character, so `c`
      fails on the low one, and no other `g` starts a match: the result is
      `null`, although `githubXcom/a/b` matches. */
  lemma AstralCharacterIsTwoCodeUnits()
    ensures ExtractGitHubRepoInfo(AstralHostUrl) == None
  {
    var s := AstralHostUrl;
    assert |s| == 14;
    assert !IsOneCodeUnit(s[6]);
    assert s[1] == 'i' && s[2] == 't' && s[3] == 'h';
    assert forall t :: 1 <= t <= 3 ==> s[t..t + 6][0] == s[t] != 'g';
    assert forall t :: 0 <= t <= 3 ==> !HostAt(s, t);
  }

  /** The owner group may start with a slash: it takes one character before
      it looks for the slash that ends it. */
  lemma OwnerMayStartWithSlash()
    ensures ExtractGitHubRepoInfo("github.com" + "//x/y") == Some(RepoInfo("/x", "y"))
  {
    // Built with `+` so that the verifier can evaluate the slices below.
    var s := "github.com" + "//x/y";
    var first := Match(0, 2, 1);
    assert s[0..6] == "github";
    assert s[7..10] == "com";
    assert IsMatch(s, first);
    forall n | IsMatch(s, n) ensures Precedes(first, n) {
      assert s[12] != '/';
    }
    ExtractFromFirstMatch(s, first);
    assert s[11..13] == "/x" && s[14..15] == "y";
  }

  /** The repo group needs at least one character, so a URL that ends right
      after the owner's slash does not match. */
  lemma RepoMayNotBeEmpty()
    ensures ExtractGitHubRepoInfo("github.com/owner/") == None
  {
  }

  /** What `fetch` does with the request: a response with its `ok` flag, or an exception. */
  datatype FetchOutcome = Responded(ok: bool) | FetchThrew

  /** The request `checkReadmeInGithub` hands to `fetch`. */
  datatype ApiRequest = ApiRequest(url: string, headers: map<string, string>)

  const ApiReposPrefix: string := "https://api.github.com/repos/"
  const ReadmePath: string := "/contents/README.md"

  /** The contents-API URL of a repository's README. */
  function ReadmeApiUrl(owner: string, repo: string): (url: string)
    ensures |url| == |ApiReposPrefix| + |owner| + 1 + |repo| + |ReadmePath|
    ensures url[..|ApiReposPrefix|] == ApiReposPrefix
    ensures url[|url| - |ReadmePath|..] == ReadmePath
    ensures url[|ApiReposPrefix|..|url| - |ReadmePath|] == owner + "/" + repo
  {
    ApiReposPrefix + owner + "/" + repo + ReadmePath
  }

  /** An owner with no slash after its first character, which is what the
      extractor returns, can be read back from the URL, and so can the repo:
      two such repositories never share a README URL. */
  lemma ReadmeApiUrlInjective(owner1: string, repo1: string, owner2: string, repo2: string)
    requires |owner1| >= 1 && forall j :: 1 <= j < |owner1| ==> owner1[j] != '/'
    requires |owner2| >= 1 && forall j :: 1 <= j < |owner2| ==> owner2[j] != '/'
    requires ReadmeApiUrl(owner1, repo1) == ReadmeApiUrl(owner2, repo2)
    ensures owner1 == owner2 && repo1 == repo2
  {
    var u := ReadmeApiUrl(owner1, repo1);
    var mid := u[|ApiReposPrefix|..|u| - |ReadmePath|];
    assert mid == owner1 + "/" + repo1 == owner2 + "/" + repo2;
    assert forall t :: 1 <= t < |owner1| ==> mid[t] == owner1[t] != '/';
    assert forall t :: 1 <= t < |owner2| ==> mid[t] == owner2[t] != '/';
    assert mid[|owner1|] == '/' == mid[|owner2|];
    assert owner1 == mid[..|owner1|] == owner2;
    assert repo1 == mid[|owner1| + 1..] == repo2;
  }

  /** Two URLs from which the extractor reads different repositories lead
      to different README requests. */
  lemma DistinctReposDistinctReadmeUrls(url1: string, url2: string)
    requires ExtractGitHubRepoInfo(url1).Some? && ExtractGitHubRepoInfo(url2).Some?
    requires ExtractGitHubRepoInfo(url1) != ExtractGitHubRepoInfo(url2)
    ensures var i1 := ExtractGitHubRepoInfo(url1).value;
      var i2 := ExtractGitHubRepoInfo(url2).value;
      ReadmeApiUrl(i1.owner, i1.repo) != ReadmeApiUrl(i2.owner, i2.repo)
  {
    var i1 := ExtractGitHubRepoInfo(url1).value;
    var i2 := ExtractGitHubRepoInfo(url2).value;
    GroupsStopAtFirstSlash(url1);
    GroupsStopAtFirstSlash(url2);
    if ReadmeApiUrl(i1.owner, i1.repo) == ReadmeApiUrl(i2.owner, i2.repo) {
      ReadmeApiUrlInjective(i1.owner, i1.repo, i2.owner, i2.repo);
    }
  }

  /** `checkReadmeInGithub`: `false` without a request when the URL does not
      match; otherwise one request to the contents API, with a bearer header
      exactly when a token is given, and `true` exactly when the response is ok.
      `fetch` is a parameter: the network call is not part of this model. */
  method CheckReadmeInGithub(repoUrl: string, githubToken: Option<string>, fetch: ApiRequest -> FetchOutcome)
    returns (hasReadme: bool, request: Option<ApiRequest>)
    ensures request.None? <==> ExtractGitHubRepoInfo(repoUrl).None?
    ensures request.Some? ==>
      var info := ExtractGitHubRepoInfo(repoUrl).value;
      request.value.url == ReadmeApiUrl(info.owner, info.repo)
    ensures request.Some? ==>
      request.value.headers.Keys <= {"Authorization"} &&
      ("Authorization" in request.value.headers <==> Truthy(githubToken)) &&
      (Truthy(githubToken) ==> request.value.headers["Authorization"] == "Bearer " + githubToken.value)
    ensures hasReadme <==> request.Some? && fetch(request.value) == Responded(true)
  {
    var repoInfo := ExtractGitHubRepoInfo(repoUrl);
    if repoInfo.None? {
      return false, None;
    }
    var apiUrl := ReadmeApiUrl(repoInfo.value.owner, repoInfo.value.repo);
    var headers: map<string, string> := map[];
    if Truthy(githubToken) {
      headers := headers["Authorization" := "Bearer " + githubToken.value];
    }
    var req := ApiRequest(apiUrl, headers);
    request := Some(req);
    match fetch(req)
    case Responded(ok) =>
      hasReadme := ok;
    case FetchThrew =>
      hasReadme := false;
  }
}
