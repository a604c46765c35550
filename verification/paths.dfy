/**
 * Path resolution of the relay (src/server.js): `path.resolve`,
 * `path.join`, `path.relative` and the confinement check `ensureInsideRoot`,
 * then `buildPaths`, which derives the fixed directory layout under a
 * local root.
 *
 * Paths follow POSIX rules. A resolved path is a sequence of segments, none
 * of them empty, `.` or `..`, and none holding a slash; its text is `/`
 * followed by the segments joined with `/`. The file system is reduced to
 * the set of paths that exist and the text of the files that can be read.
 */
module Paths {
  import opened Text
  import opened Results

  predicate IsSegment(x: string) {
    x != "" && x != "." && x != ".." && '/' !in x
  }

  predicate IsCanonical(p: seq<string>) {
    forall i :: 0 <= i < |p| ==> IsSegment(p[i])
  }

  /** An absolute path after `path.resolve`. */
  type Path = p: seq<string> | IsCanonical(p) witness []

  /** What the relay can observe of the disk: `fs.existsSync` and `fs.readFileSync`. */
  datatype FileSystem = FileSystem(existing: set<Path>, contents: map<Path, string>)

  predicate NoSeparator(xs: seq<string>) {
    forall i :: 0 <= i < |xs| ==> '/' !in xs[i]
  }

  /** One step of POSIX normalisation: `.` and empty pieces vanish, `..` climbs (never above `/`). */
  function Step(acc: Path, x: string): Path
    requires '/' !in x
  {
    if x == "" || x == "." then acc
    else if x == ".." then (if acc == [] then [] else acc[..|acc| - 1])
    else acc + [x]
  }

  function Collapse(acc: Path, xs: seq<string>): Path
    requires NoSeparator(xs)
    decreases |xs|
  {
    if xs == [] then acc else Collapse(Step(acc, xs[0]), xs[1..])
  }

  /** `path.resolve(s)` when the process's working directory is `cwd`. */
  function Resolve(cwd: Path, s: string): Path {
    SplitPiecesLackSeparator(s, '/');
    var start: Path := if s != [] && s[0] == '/' then [] else cwd;
    Collapse(start, Split(s, '/'))
  }

  /** The text of a resolved path. */
  function Render(p: Path): (r: string)
    ensures r != "" && r[0] == '/'
  {
    "/" + Join(p, '/')
  }

  /** `path.join(base, ...names)` for an absolute base. */
  function JoinPath(base: Path, names: seq<string>): Path
    requires NoSeparator(names)
  {
    Collapse(base, names)
  }

  function CommonPrefixLength(a: seq<string>, b: seq<string>): (k: nat)
    ensures k <= |a| && k <= |b| && a[..k] == b[..k]
    ensures k < |a| && k < |b| ==> a[k] != b[k]
  {
    if a == [] || b == [] || a[0] != b[0] then 0
    else
      var k := CommonPrefixLength(a[1..], b[1..]);
      assert a[..k + 1] == [a[0]] + a[1..][..k];
      assert b[..k + 1] == [b[0]] + b[1..][..k];
      k + 1
  }

  function Ups(n: nat): (r: seq<string>)
    ensures |r| == n && forall i :: 0 <= i < n ==> r[i] == ".."
  {
    if n == 0 then [] else [".."] + Ups(n - 1)
  }

  /** `path.relative(from, to)` between resolved paths: climb out of `from`, then descend into `to`. */
  function Relative(from: Path, to: Path): string {
    var k := CommonPrefixLength(from, to);
    Join(Ups(|from| - k) + to[k..], '/')
  }

  /** `path.isAbsolute(s)`. */
  predicate IsAbsolute(s: string) {
    s != [] && s[0] == '/'
  }

  /**
   * `ensureInsideRoot(root, candidate)`: the relative path from the root to
   * the candidate is empty, or neither starts with the two characters `..`
   * nor is absolute. The `..` test is on the text, as in the source.
   */
  predicate EnsureInsideRoot(cwd: Path, root: string, candidate: string) {
    var rel := Relative(Resolve(cwd, root), Resolve(cwd, candidate));
    rel == "" || (!StartsWith(rel, "..") && !IsAbsolute(rel))
  }

  // ---------------------------------------------------------------------
  // Properties of the path model
  // ---------------------------------------------------------------------

  /** Collapsing canonical segments appends them. */
  lemma {:induction false} CollapsePieces(acc: Path, p: Path)
    ensures NoSeparator(p) && Collapse(acc, p) == acc + p
    decreases |p|
  {
    assert NoSeparator(p) by {
      forall i | 0 <= i < |p| ensures '/' !in p[i] { assert IsSegment(p[i]); }
    }
    if p != [] {
      assert IsSegment(p[0]);
      var next: Path := acc + [p[0]];
      assert Step(acc, p[0]) == next;
      CollapsePieces(next, p[1..]);
      assert next + p[1..] == acc + p;
    }
  }

  /** Collapsing the pieces of the joined segments of a path appends exactly those segments. */
  lemma CollapseJoined(acc: Path, p: Path)
    ensures NoSeparator(Split(Join(p, '/'), '/'))
    ensures Collapse(acc, Split(Join(p, '/'), '/')) == acc + p
  {
    SplitPiecesLackSeparator(Join(p, '/'), '/');
    if p == [] {
      assert Split("", '/') == [""];
    } else {
      CollapsePieces(acc, p);
      SplitJoin(p, '/');
    }
  }

  /** Resolving the text of a resolved path gives the same path, whatever the working directory. */
  lemma ResolveRender(cwd: Path, p: Path)
    ensures Resolve(cwd, Render(p)) == p
  {
    var s := Render(p);
    var j := Join(p, '/');
    assert s == "" + ['/'] + j;
    SplitAtFirst("", '/', j);
    CollapseJoined([], p);
    var empty: Path := [];
    assert Split(s, '/') == [""] + Split(j, '/');
    assert Step(empty, "") == empty;
  }

  /** The joined text of canonical segments begins with the first segment's text, never with a slash. */
  lemma JoinedSegments(xs: Path)
    requires xs != []
    ensures Join(xs, '/') != "" && Join(xs, '/')[0] != '/'
    ensures StartsWith(Join(xs, '/'), "..") <==> StartsWith(xs[0], "..")
  {
    assert IsSegment(xs[0]);
    var j := Join(xs, '/');
    if |xs| > 1 {
      assert j == xs[0] + ['/'] + Join(xs[1..], '/');
    }
    assert j[..|xs[0]|] == xs[0];
    if |xs[0]| == 1 {
      assert xs[0] != ".";
    }
  }

  /** Climbing out of a directory that is not an ancestor always begins with `..`. */
  lemma ClimbingStartsWithDots(n: nat, rest: seq<string>)
    requires n >= 1
    ensures StartsWith(Join(Ups(n) + rest, '/'), "..")
  {
    var xs := Ups(n) + rest;
    assert xs[0] == "..";
    if |xs| > 1 {
      assert Join(xs, '/') == ".." + ['/'] + Join(xs[1..], '/');
    }
  }

  /**
   * The confinement check accepts a candidate exactly when the root is an
   * ancestor of it (or the candidate itself) and the first segment below the
   * root does not start with `..`.
   */
  lemma InsideRootCharacterised(cwd: Path, root: Path, candidate: Path)
    ensures EnsureInsideRoot(cwd, Render(root), Render(candidate)) <==>
      (|root| <= |candidate| && candidate[..|root|] == root &&
       (|candidate| == |root| || !StartsWith(candidate[|root|], "..")))
  {
    ResolveRender(cwd, root);
    ResolveRender(cwd, candidate);
    var k := CommonPrefixLength(root, candidate);
    var rel := Relative(root, candidate);
    if k < |root| {
      ClimbingStartsWithDots(|root| - k, candidate[k..]);
      assert StartsWith(rel, "..");
    } else {
      assert root == candidate[..|root|];
      var below: Path := candidate[k..];
      assert Ups(0) + below == below;
      assert rel == Join(below, '/');
      if below != [] {
        JoinedSegments(below);
        assert below[0] == candidate[|root|];
      }
    }
  }

  // ---------------------------------------------------------------------
  // buildPaths
  // ---------------------------------------------------------------------

  const StateFileName := "grocy-addon-state.json"

  /** The directories and state file that `buildPaths` derives from a root. */
  datatype Layout = Layout(root: Path, scriptsDir: Path, configDir: Path, dataDir: Path, stateFile: Path)

  /** The layout under `root`: `addon/scripts`, `config`, `config/data` and the state file inside the latter. */
  function LayoutOf(root: Path): (l: Layout)
    ensures l.root == root
    ensures l.scriptsDir == root + ["addon", "scripts"]
    ensures l.configDir == root + ["config"]
    ensures l.dataDir == root + ["config", "data"]
    ensures l.stateFile == root + ["config", "data", StateFileName]
  {
    var scripts: Path := ["addon", "scripts"];
    var config: Path := ["config"];
    var data: Path := ["data"];
    var file: Path := [StateFileName];
    CollapsePieces(root, scripts);
    CollapsePieces(root, config);
    var configDir := JoinPath(root, config);
    CollapsePieces(configDir, data);
    var dataDir := JoinPath(configDir, data);
    CollapsePieces(dataDir, file);
    Layout(root, JoinPath(root, scripts), configDir, dataDir, JoinPath(dataDir, file))
  }

  /** The root that `buildPaths` starts from: the trimmed text, resolved. */
  function RootOf(cwd: Path, localRootPath: string): Path {
    Resolve(cwd, Trim(localRootPath))
  }

  /**
   * `buildPaths(localRootPath)`: resolve the root, derive the layout, check
   * confinement, then check that the scripts and data directories exist.
   */
  function BuildPaths(fs: FileSystem, cwd: Path, localRootPath: string): (r: Result<Layout>)
    ensures r.Ok? ==> r.value == LayoutOf(RootOf(cwd, localRootPath))
  {
    var root := RootOf(cwd, localRootPath);
    if Render(root) == "" || root !in fs.existing then
      Err("Local root not found: " + localRootPath)
    else
      var layout := LayoutOf(root);
      if !EnsureInsideRoot(cwd, Render(root), Render(layout.scriptsDir))
         || !EnsureInsideRoot(cwd, Render(root), Render(layout.configDir)) then
        Err("Invalid local root path.")
      else if layout.scriptsDir !in fs.existing then
        Err("Scripts directory not found: " + Render(layout.scriptsDir))
      else if layout.dataDir !in fs.existing then
        Err("Config data directory not found: " + Render(layout.dataDir))
      else
        Ok(layout)
  }

  /** A descendant whose first segment below the root does not start with `..` passes the confinement check. */
  lemma DescendantIsConfined(cwd: Path, root: Path, below: Path)
    requires below != [] && !StartsWith(below[0], "..")
    ensures EnsureInsideRoot(cwd, Render(root), Render(root + below))
  {
    var c := root + below;
    InsideRootCharacterised(cwd, root, c);
    assert c[..|root|] == root;
    assert c[|root|] == below[0];
  }

  /** The fixed children of a resolved root always pass the confinement check. */
  lemma LayoutIsConfined(cwd: Path, root: Path)
    ensures EnsureInsideRoot(cwd, Render(root), Render(LayoutOf(root).scriptsDir))
    ensures EnsureInsideRoot(cwd, Render(root), Render(LayoutOf(root).configDir))
  {
    var scripts: Path := ["addon", "scripts"];
    var config: Path := ["config"];
    assert "addon"[..2] == "ad" && "config"[..2] == "co";
    DescendantIsConfined(cwd, root, scripts);
    DescendantIsConfined(cwd, root, config);
  }

  /**
   * `buildPaths` fails on the first missing directory, in the order root,
   * scripts, data, and never with "Invalid local root path.".
   */
  lemma BuildPathsOutcome(fs: FileSystem, cwd: Path, localRootPath: string)
    ensures var root := RootOf(cwd, localRootPath);
      var l := LayoutOf(root);
      BuildPaths(fs, cwd, localRootPath) ==
        if root !in fs.existing then Err("Local root not found: " + localRootPath)
        else if l.scriptsDir !in fs.existing then Err("Scripts directory not found: " + Render(l.scriptsDir))
        else if l.dataDir !in fs.existing then Err("Config data directory not found: " + Render(l.dataDir))
        else Ok(l)
  {
    LayoutIsConfined(cwd, RootOf(cwd, localRootPath));
  }

  /** No input makes `buildPaths` fail with "Invalid local root path.". */
  lemma BuildPathsNeverInvalid(fs: FileSystem, cwd: Path, localRootPath: string)
    ensures BuildPaths(fs, cwd, localRootPath) != Err("Invalid local root path.")
  {
    BuildPathsOutcome(fs, cwd, localRootPath);
    var r := BuildPaths(fs, cwd, localRootPath);
    if r.Err? {
      assert r.message[0] != "Invalid local root path."[0];
    }
  }
}
