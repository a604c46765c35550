/**
 * Input normalisers of the relay (src/server.js): the repository identifier
 * and the release tag of an update request.
 */
module Normalize {
  import opened Results
  import opened Text
  import opened JsValues

  const GithubHttps: string := "https://github.com/"
  const GithubHttp: string := "http://github.com/"

  // ---------------------------------------------------------------------
  // Repository identifiers
  // ---------------------------------------------------------------------

  /** The character class `[A-Za-z0-9_.-]`. */
  predicate IsNameChar(c: char) {
    ('A' <= c <= 'Z') || ('a' <= c <= 'z') || ('0' <= c <= '9') || c == '_' || c == '.' || c == '-'
  }

  /** `/^[A-Za-z0-9_.-]+$/.test(s)`. */
  predicate IsName(s: string) {
    |s| > 0 && forall i :: 0 <= i < |s| ==> IsNameChar(s[i])
  }

  /** A normalised repository: exactly two names separated by one slash. */
  predicate IsOwnerRepo(r: string) {
    var parts := Split(r, '/');
    |parts| == 2 && IsName(parts[0]) && IsName(parts[1])
  }

  /** `.replace(/^https?:\/\/github\.com\//i, '')`. */
  function StripGithubPrefix(s: string): (r: string)
    ensures EndsWith(s, r)
    ensures r == s <==> !StartsWithIgnoreCase(s, GithubHttps) && !StartsWithIgnoreCase(s, GithubHttp)
    ensures r != s ==>
      (StartsWithIgnoreCase(s, GithubHttps) && |r| == |s| - |GithubHttps|) ||
      (StartsWithIgnoreCase(s, GithubHttp) && |r| == |s| - |GithubHttp|)
  {
    if StartsWithIgnoreCase(s, GithubHttps) then s[|GithubHttps|..]
    else if StartsWithIgnoreCase(s, GithubHttp) then s[|GithubHttp|..]
    else s
  }

  /** `.replace(/\.git$/i, '')`: at most one suffix is removed. */
  function StripGitSuffix(s: string): (r: string)
    ensures StartsWith(s, r)
    ensures r == s <==> !EndsWithIgnoreCase(s, ".git")
    ensures r != s ==> |r| == |s| - 4
  {
    if EndsWithIgnoreCase(s, ".git") then s[..|s| - 4] else s
  }

  /** `n` slashes. */
  function Slashes(n: nat): (r: string)
    ensures |r| == n && forall i :: 0 <= i < n ==> r[i] == '/'
  {
    seq(n, _ => '/')
  }

  /** One more slash goes at either end. */
  lemma SlashesGrow(n: nat)
    ensures Slashes(n + 1) == ['/'] + Slashes(n) == Slashes(n) + ['/']
  {
    var more := Slashes(n + 1);
    assert forall i :: 0 <= i < n + 1 ==> more[i] == (['/'] + Slashes(n))[i];
    assert forall i :: 0 <= i < n + 1 ==> more[i] == (Slashes(n) + ['/'])[i];
  }

  /** The text after its leading slashes, and exactly those slashes removed. */
  function StripLeadingSlashes(s: string): (r: string)
    ensures r == [] || r[0] != '/'
    ensures |r| <= |s| && s == Slashes(|s| - |r|) + r
  {
    if s != [] && s[0] == '/' then
      var r := StripLeadingSlashes(s[1..]);
      assert s == [s[0]] + s[1..];
      SlashesGrow(|s[1..]| - |r|);
      r
    else
      assert s == Slashes(0) + s;
      s
  }

  /** The text before its trailing slashes, and exactly those slashes removed. */
  function StripTrailingSlashes(s: string): (r: string)
    ensures r == [] || r[|r| - 1] != '/'
    ensures |r| <= |s| && s == r + Slashes(|s| - |r|)
  {
    if s != [] && s[|s| - 1] == '/' then
      var r := StripTrailingSlashes(s[..|s| - 1]);
      assert s == s[..|s| - 1] + [s[|s| - 1]];
      SlashesGrow(|s| - 1 - |r|);
      r
    else
      assert s == s + Slashes(0);
      s
  }

  /**
   * `.replace(/^\/+|\/+$/g, '')`: every leading and every trailing slash
   * goes, and nothing else.
   */
  function StripSlashes(s: string): (r: string)
    ensures r == [] || (r[0] != '/' && r[|r| - 1] != '/')
    ensures exists k :: 0 <= k <= |s| - |r| && s == Slashes(k) + r + Slashes(|s| - |r| - k)
  {
    var t := StripLeadingSlashes(s);
    var u := StripTrailingSlashes(t);
    assert u != [] ==> u[0] == t[0];
    var k := |s| - |t|;
    assert s == Slashes(k) + (u + Slashes(|t| - |u|));
    assert s == Slashes(k) + u + Slashes(|s| - |u| - k);
    u
  }

  /** The text pipeline of normalizeRepository, in the order the source applies it. */
  function CleanRepository(s: string): string {
    StripSlashes(StripGitSuffix(StripGithubPrefix(Trim(s))))
  }

  /** `.filter(Boolean)` on the pieces of a split. */
  function NonEmptyPieces(xs: seq<string>): (r: seq<string>)
    ensures |r| <= |xs|
    ensures forall i :: 0 <= i < |r| ==> r[i] != ""
    ensures forall x :: x in r <==> x in xs && x != ""
  {
    if xs == [] then []
    else if xs[0] == "" then NonEmptyPieces(xs[1..])
    else [xs[0]] + NonEmptyPieces(xs[1..])
  }

  /** Dropping the empty pieces keeps the order: it distributes over concatenation. */
  lemma {:induction false} NonEmptyPiecesAppend(xs: seq<string>, ys: seq<string>)
    ensures NonEmptyPieces(xs + ys) == NonEmptyPieces(xs) + NonEmptyPieces(ys)
  {
    if xs == [] {
      assert xs + ys == ys;
    } else {
      assert (xs + ys)[0] == xs[0];
      assert (xs + ys)[1..] == xs[1..] + ys;
      NonEmptyPiecesAppend(xs[1..], ys);
    }
  }

  /** The non-empty `/`-separated segments of the cleaned input. */
  function RepositorySegments(s: string): seq<string> {
    NonEmptyPieces(Split(CleanRepository(s), '/'))
  }

  /** A name never holds the separator. */
  lemma NameHasNoSlash(s: string)
    requires IsName(s)
    ensures '/' !in s
  {
  }

  /** Two names joined by a slash split back into those two names. */
  lemma SplitOwnerRepo(owner: string, repo: string)
    requires IsName(owner) && IsName(repo)
    ensures Split(owner + "/" + repo, '/') == [owner, repo]
  {
    NameHasNoSlash(owner);
    NameHasNoSlash(repo);
    SplitAtFirst(owner, '/', repo);
    SplitNoSeparator(repo, '/');
  }

  /**
   * The decision of normalizeRepository on the segments: `''` (invalid) or an
   * `owner/repo` pair made of the first two segments, later segments dropped.
   */
  function OwnerRepoOf(parts: seq<string>): (r: string)
    ensures r == "" || IsOwnerRepo(r)
    ensures |parts| < 2 ==> r == ""
    ensures r != "" ==> r == parts[0] + "/" + parts[1]
    ensures |parts| >= 2 ==> (r != "" <==> IsName(parts[0]) && IsName(parts[1]))
  {
    if |parts| < 2 then ""
    else
      var owner := parts[0];
      var repo := parts[1];
      if !IsName(owner) || !IsName(repo) then ""
      else
        SplitOwnerRepo(owner, repo);
        owner + "/" + repo
  }

  /** normalizeRepository on the coerced text. */
  function NormalizeRepositoryText(s: string): (r: string)
    ensures r == "" || IsOwnerRepo(r)
  {
    OwnerRepoOf(RepositorySegments(s))
  }

  /** `normalizeRepository(value)`, including the `String(value || '')` coercion. */
  function NormalizeRepository(conv: Conversions, v: Value): (r: Result<string>)
    ensures r.Err? <==> TextOrEmpty(conv, v).Err?
    ensures r.Err? ==> r.message == ConversionError
    ensures r.Ok? ==> r.value == "" || IsOwnerRepo(r.value)
    ensures !Truthy(v) ==> r == Ok("")
    ensures v.Str? ==> r == Ok(NormalizeRepositoryText(v.s))
  {
    var t := TextOrEmpty(conv, v);
    if t.Err? then Err(t.message) else Ok(NormalizeRepositoryText(t.value))
  }

  /** Text made only of name characters and slashes. */
  predicate IsRepoText(s: string) {
    forall i :: 0 <= i < |s| ==> IsNameChar(s[i]) || s[i] == '/'
  }

  /** Such text never carries a `http(s)://github.com/` prefix, whatever its case. */
  lemma NoSchemeInRepoText(s: string)
    requires IsRepoText(s)
    ensures !StartsWithIgnoreCase(s, GithubHttps) && !StartsWithIgnoreCase(s, GithubHttp)
  {
    if |s| >= |GithubHttps| {
      assert LowerAscii(s[5]) != LowerAscii(GithubHttps[5]);
    }
    if |s| >= |GithubHttp| {
      assert LowerAscii(s[4]) != LowerAscii(GithubHttp[4]);
    }
  }

  /** The prefix rule removes a GitHub URL scheme and nothing from repository text. */
  lemma StripSchemeOnly(scheme: string, t: string)
    requires IsRepoText(t)
    requires scheme == "" || scheme == GithubHttps || scheme == GithubHttp
    ensures StripGithubPrefix(scheme + t) == t
  {
    var x := scheme + t;
    if scheme == GithubHttps {
      assert x[..|GithubHttps|] == GithubHttps;
      assert x[|GithubHttps|..] == t;
    } else if scheme == GithubHttp {
      assert x[4] == ':';
      assert LowerAscii(x[4]) != LowerAscii(GithubHttps[4]);
      assert x[..|GithubHttp|] == GithubHttp;
      assert x[|GithubHttp|..] == t;
    } else {
      assert x == t;
      NoSchemeInRepoText(t);
    }
  }

  /** The suffix rule removes exactly one requested `.git`. */
  lemma StripGitOnly(body: string, suffix: string)
    requires suffix == "" || suffix == ".git"
    requires suffix == "" ==> !EndsWithIgnoreCase(body, ".git")
    ensures StripGitSuffix(body + suffix) == body
  {
    if suffix == ".git" {
      var x := body + suffix;
      assert x[|x| - 4..] == ".git";
      assert EndsWithIgnoreCase(x, ".git");
      assert x[..|x| - 4] == body;
    } else {
      assert body + suffix == body;
    }
  }

  /** Two names joined by a slash form repository text with a name character at each end. */
  lemma OwnerRepoShape(owner: string, repo: string)
    requires IsName(owner) && IsName(repo)
    ensures var body := owner + "/" + repo;
      && |body| > 0 && IsNameChar(body[0]) && IsNameChar(body[|body| - 1]) && IsRepoText(body)
  {
    var body := owner + "/" + repo;
    assert forall i :: 0 <= i < |body| ==> body[i] == (if i < |owner| then owner[i] else if i == |owner| then '/' else repo[i - |owner| - 1]);
  }

  /** Appending the requested suffix keeps repository text. */
  lemma SuffixedRepoText(body: string, suffix: string)
    requires IsRepoText(body)
    requires suffix == "" || suffix == ".git"
    ensures IsRepoText(body + suffix)
  {
    var g := body + suffix;
    assert forall i :: 0 <= i < |g| ==> g[i] == (if i < |body| then body[i] else suffix[i - |body|]);
  }

  /** Text that starts and ends with a name character keeps its slashes. */
  lemma NoOuterSlashes(body: string)
    requires |body| > 0 && IsNameChar(body[0]) && IsNameChar(body[|body| - 1])
    ensures StripSlashes(body) == body
  {
  }

  /** Repository text keeps its shape with a scheme in front and a suffix behind. */
  lemma WrappedIsUntrimmed(scheme: string, body: string, suffix: string)
    requires |body| > 0 && IsNameChar(body[0]) && IsNameChar(body[|body| - 1])
    requires scheme == "" || scheme == GithubHttps || scheme == GithubHttp
    requires suffix == "" || suffix == ".git"
    ensures Trim(scheme + (body + suffix)) == scheme + (body + suffix)
  {
    var x := scheme + (body + suffix);
    assert x[0] == (if scheme != "" then scheme[0] else body[0]);
    assert x[|x| - 1] == (if suffix != "" then suffix[|suffix| - 1] else body[|body| - 1]);
    TrimUnchanged(x);
  }

  /** The text pipeline takes a wrapped pair back to the bare pair. */
  lemma CleanWrapped(scheme: string, owner: string, repo: string, suffix: string)
    requires IsName(owner) && IsName(repo)
    requires scheme == "" || scheme == GithubHttps || scheme == GithubHttp
    requires suffix == "" || suffix == ".git"
    requires suffix == "" ==> !EndsWithIgnoreCase(owner + "/" + repo, ".git")
    ensures CleanRepository(scheme + ((owner + "/" + repo) + suffix)) == owner + "/" + repo
  {
    var body := owner + "/" + repo;
    OwnerRepoShape(owner, repo);
    WrappedIsUntrimmed(scheme, body, suffix);
    SuffixedRepoText(body, suffix);
    StripSchemeOnly(scheme, body + suffix);
    StripGitOnly(body, suffix);
    NoOuterSlashes(body);
  }

  /** Filtering empty pieces keeps two names. */
  lemma NamesAreKept(owner: string, repo: string)
    requires IsName(owner) && IsName(repo)
    ensures NonEmptyPieces([owner, repo]) == [owner, repo]
  {
  }

  /** Two names make the pair. */
  lemma PairOfNames(owner: string, repo: string)
    requires IsName(owner) && IsName(repo)
    ensures OwnerRepoOf([owner, repo]) == owner + "/" + repo
  {
  }

  /** A wrapped pair has exactly the two names as its segments. */
  lemma SegmentsOfWrapped(scheme: string, owner: string, repo: string, suffix: string)
    requires IsName(owner) && IsName(repo)
    requires scheme == "" || scheme == GithubHttps || scheme == GithubHttp
    requires suffix == "" || suffix == ".git"
    requires suffix == "" ==> !EndsWithIgnoreCase(owner + "/" + repo, ".git")
    ensures RepositorySegments(scheme + ((owner + "/" + repo) + suffix)) == [owner, repo]
  {
    var x := scheme + ((owner + "/" + repo) + suffix);
    CleanWrapped(scheme, owner, repo, suffix);
    var c := CleanRepository(x);
    assert c == owner + "/" + repo;
    SplitOwnerRepo(owner, repo);
    var pieces := Split(c, '/');
    assert pieces == [owner, repo];
    NamesAreKept(owner, repo);
    assert RepositorySegments(x) == NonEmptyPieces(pieces);
  }

  /**
   * Every way of writing a repository the relay documents comes out as
   * `owner/repo`: bare or behind an http(s) GitHub URL, with or without a
   * `.git` suffix. Without the suffix the pair must not itself end in `.git`,
   * because the source strips that suffix wherever it comes from.
   */
  lemma RepositoryFromUrl(scheme: string, owner: string, repo: string, suffix: string)
    requires IsName(owner) && IsName(repo)
    requires scheme == "" || scheme == GithubHttps || scheme == GithubHttp
    requires suffix == "" || suffix == ".git"
    requires suffix == "" ==> !EndsWithIgnoreCase(owner + "/" + repo, ".git")
    ensures NormalizeRepositoryText(scheme + ((owner + "/" + repo) + suffix)) == owner + "/" + repo
  {
    SegmentsOfWrapped(scheme, owner, repo, suffix);
    PairOfNames(owner, repo);
  }

  /** The repository the relay is usually pointed at, written as its clone URL. */
  lemma RepositoryExample()
    ensures NormalizeRepositoryText("https://github.com/Raph563/Grocy.git") == "Raph563/Grocy"
  {
    assert IsName("Raph563");
    assert IsName("Grocy");
    assert "https://github.com/Raph563/Grocy.git" == GithubHttps + (("Raph563" + "/" + "Grocy") + ".git");
    assert "Raph563/Grocy" == "Raph563" + "/" + "Grocy";
    RepositoryFromUrl(GithubHttps, "Raph563", "Grocy", ".git");
  }

  /** Split undoes nothing that Join would not restore. */
  lemma {:induction false} JoinSplit(s: string, sep: char)
    ensures Join(Split(s, sep), sep) == s
  {
    if s != [] {
      JoinSplit(s[1..], sep);
      var rest := Split(s[1..], sep);
      assert [s[0]] + s[1..] == s;
      if s[0] == sep {
        assert Split(s, sep) == [""] + rest;
        JoinCons("", rest, sep);
      } else if |rest| == 1 {
        assert Split(s, sep) == [[s[0]] + rest[0]];
      } else {
        var head := [[s[0]] + rest[0]] + rest[1..];
        assert Split(s, sep) == head;
        assert head == [[s[0]] + rest[0]] + rest[1..];
        JoinCons([s[0]] + rest[0], rest[1..], sep);
        assert rest == [rest[0]] + rest[1..];
        JoinCons(rest[0], rest[1..], sep);
      }
    }
  }

  /** Joining a piece in front of a non-empty list puts one separator between. */
  lemma JoinCons(x: string, xs: seq<string>, sep: char)
    requires |xs| >= 1
    ensures Join([x] + xs, sep) == x + [sep] + Join(xs, sep)
  {
    assert ([x] + xs)[1..] == xs;
  }

  /** A blank input has no segment and is rejected. */
  lemma BlankRepositoryIsInvalid(s: string)
    requires Trim(s) == ""
    ensures NormalizeRepositoryText(s) == ""
  {
    var t := Trim(s);
    assert CleanRepository(s) == [] by {
      assert |StripGithubPrefix(t)| == 0;
      assert |StripGitSuffix([])| == 0;
      assert |StripSlashes([])| == 0;
    }
    assert Split([], '/') == [""];
    assert RepositorySegments(s) == NonEmptyPieces([""]) == [];
  }

  /** An `owner/repo` pair that does not end in `.git` is a fixed point of normalisation. */
  lemma OwnerRepoIsFixedPoint(r: string)
    requires IsOwnerRepo(r) && !EndsWithIgnoreCase(r, ".git")
    ensures NormalizeRepositoryText(r) == r
  {
    var parts := Split(r, '/');
    JoinSplit(r, '/');
    assert r == parts[0] + "/" + parts[1];
    RepositoryFromUrl("", parts[0], parts[1], "");
    assert "" + ((parts[0] + "/" + parts[1]) + "") == r;
  }

  /**
   * Normalising a normalised repository changes it only when it ends in
   * `.git`: such a pair loses that suffix a second time.
   */
  lemma RepositoryStableUnlessGitSuffix(s: string)
    requires !EndsWithIgnoreCase(NormalizeRepositoryText(s), ".git")
    ensures NormalizeRepositoryText(NormalizeRepositoryText(s)) == NormalizeRepositoryText(s)
  {
    var r := NormalizeRepositoryText(s);
    if r != "" {
      OwnerRepoIsFixedPoint(r);
    } else {
      TrimUnchanged(r);
      BlankRepositoryIsInvalid(r);
    }
  }

  /** normalizeRepository is not idempotent: a doubled `.git` is removed one copy per call. */
  lemma RepositoryNotIdempotent()
    ensures NormalizeRepositoryText("a/b.git.git") == "a/b.git"
    ensures NormalizeRepositoryText("a/b.git") == "a/b"
  {
    assert IsName("a") && IsName("b") && IsName("b.git");
    assert "a/b.git.git" == "" + (("a" + "/" + "b.git") + ".git");
    assert "a/b.git" == "" + (("a" + "/" + "b") + ".git");
    assert "a/b.git" == "a" + "/" + "b.git";
    assert "a/b" == "a" + "/" + "b";
    RepositoryFromUrl("", "a", "b.git", ".git");
    RepositoryFromUrl("", "a", "b", ".git");
  }

  // ---------------------------------------------------------------------
  // Release tags
  // ---------------------------------------------------------------------

  /**
   * normalizeReleaseTag on the coerced text: empty for a blank tag ("latest"),
   * otherwise the trimmed tag with a `v` in front unless it has one.
   */
  function NormalizeTagText(s: string): (r: string)
    ensures r == "" <==> Trim(s) == ""
    ensures r != "" ==> r[0] == 'v'
    ensures EndsWith(r, Trim(s)) && |r| <= |Trim(s)| + 1
    ensures Trim(s) != "" && Trim(s)[0] == 'v' ==> r == Trim(s)
  {
    var raw := Trim(s);
    if raw == "" then ""
    else if raw[0] == 'v' then raw
    else "v" + raw
  }

  /** `normalizeReleaseTag(value)`, including the `String(value || '')` coercion. */
  function NormalizeReleaseTag(conv: Conversions, v: Value): (r: Result<string>)
    ensures r.Err? <==> TextOrEmpty(conv, v).Err?
    ensures r.Err? ==> r.message == ConversionError
    ensures r.Ok? ==> r.value == "" || r.value[0] == 'v'
    ensures !Truthy(v) ==> r == Ok("")
    ensures v.Str? ==> r == Ok(NormalizeTagText(v.s))
  {
    var t := TextOrEmpty(conv, v);
    if t.Err? then Err(t.message) else Ok(NormalizeTagText(t.value))
  }

  /** Normalising normalised tag text gives it back. */
  lemma TagTextIdempotent(s: string)
    ensures NormalizeTagText(NormalizeTagText(s)) == NormalizeTagText(s)
  {
    var r := NormalizeTagText(s);
    var raw := Trim(s);
    if raw != "" {
      if raw[0] == 'v' {
        assert r == raw;
      } else {
        assert r == "v" + raw;
        assert r[|r| - 1] == raw[|raw| - 1];
      }
      TrimUnchanged(r);
    }
  }

  /** Normalising a normalised tag gives it back. */
  lemma ReleaseTagIdempotent(conv: Conversions, v: Value)
    ensures NormalizeReleaseTag(conv, v).Ok? ==>
      NormalizeReleaseTag(conv, Str(NormalizeReleaseTag(conv, v).value)) == NormalizeReleaseTag(conv, v)
  {
    var r := NormalizeReleaseTag(conv, v);
    if r.Ok? {
      assert TextOrEmpty(conv, Str(r.value)) == Ok(r.value);
      TagTextIdempotent(TextOrEmpty(conv, v).value);
    }
  }

  /**
   * A bare version number gains its `v`: "1.2.3" becomes "v1.2.3". The two
   * texts are parameters fixed by the precondition, so that the verifier
   * reasons about their characters instead of unfolding the trim on a literal.
   */
  lemma ReleaseTagGainsPrefix(bare: string, prefixed: string)
    requires bare == "1.2.3" && prefixed == "v1.2.3"
    ensures NormalizeTagText(bare) == prefixed
  {
    assert !IsJsSpace(bare[0]) && !IsJsSpace(bare[|bare| - 1]);
    TrimUnchanged(bare);
    assert bare[0] != 'v';
    assert prefixed == "v" + bare;
  }

  /** A prefixed tag is kept: "v1.2.3" stays "v1.2.3" (a parameter for the same reason). */
  lemma ReleaseTagKeepsPrefix(prefixed: string)
    requires prefixed == "v1.2.3"
    ensures NormalizeTagText(prefixed) == prefixed
  {
    assert !IsJsSpace(prefixed[0]) && !IsJsSpace(prefixed[|prefixed| - 1]);
    TrimUnchanged(prefixed);
    assert prefixed[0] == 'v';
  }
}
