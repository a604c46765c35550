/**
 * `buildCommand` (src/server.js): the program, argument vector and working
 * directory of the update script, in a Windows and a POSIX variant. Each
 * variant is a fixed argument prefix followed by optional flags in the
 * order tag, prerelease, no-backup.
 */
module Command {
  import opened Results
  import opened Paths

  /** The fields of the request that reach the command. */
  datatype CommandInput = CommandInput(repository: string, releaseTag: string, includePrerelease: bool, noBackup: bool)

  /** What `spawn` is given. */
  datatype CommandSpec = CommandSpec(file: string, args: seq<string>, cwd: Path)

  /** `process.platform === 'win32'` selects PowerShell; every other platform uses `/bin/sh`. */
  predicate IsWindows(platform: string) {
    platform == "win32"
  }

  function Program(platform: string): string {
    if IsWindows(platform) then "powershell" else "/bin/sh"
  }

  function ScriptName(platform: string): (name: string)
    ensures IsSegment(name)
  {
    if IsWindows(platform) then "update-from-github.ps1" else "update-from-github.sh"
  }

  /** `path.join(scriptsDir, <script name>)`. */
  function ScriptPath(platform: string, layout: Layout): (p: Path)
    ensures p == layout.scriptsDir + [ScriptName(platform)]
  {
    var name: Path := [ScriptName(platform)];
    CollapsePieces(layout.scriptsDir, name);
    JoinPath(layout.scriptsDir, name)
  }

  function TagFlag(platform: string): string {
    if IsWindows(platform) then "-ReleaseTag" else "--tag"
  }

  function PrereleaseFlag(platform: string): string {
    if IsWindows(platform) then "-AllowPrerelease" else "--allow-prerelease"
  }

  function NoBackupFlag(platform: string): string {
    if IsWindows(platform) then "-NoBackup" else "--no-backup"
  }

  /** The fixed part of the argument vector. */
  function Prefix(platform: string, script: string, repo: string, config: string): seq<string> {
    if IsWindows(platform) then
      ["-NoProfile", "-ExecutionPolicy", "Bypass", "-File", script, "-Repository", repo, "-GrocyConfigPath", config]
    else
      [script, "--repository", repo, "--config", config]
  }

  function PrefixLength(platform: string): nat {
    if IsWindows(platform) then 9 else 5
  }

  /** The optional switches of a request. */
  datatype Options = Options(tag: string, prerelease: bool, noBackup: bool)

  /** The optional part of the argument vector. */
  function Flags(platform: string, o: Options): seq<string> {
    (if o.tag != "" then [TagFlag(platform), o.tag] else [])
    + (if o.prerelease then [PrereleaseFlag(platform)] else [])
    + (if o.noBackup then [NoBackupFlag(platform)] else [])
  }

  function OptionsOf(input: CommandInput): Options {
    Options(input.releaseTag, input.includePrerelease, input.noBackup)
  }

  /** The whole argument vector for a request whose script exists. */
  function Arguments(platform: string, input: CommandInput, layout: Layout): seq<string> {
    Prefix(platform, Render(ScriptPath(platform, layout)), input.repository, Render(layout.configDir))
    + Flags(platform, OptionsOf(input))
  }

  /** The `args.push` calls: each optional flag is appended after the prefix, in order. */
  method PushFlags(platform: string, args: seq<string>, o: Options) returns (out: seq<string>)
    ensures out == args + Flags(platform, o)
  {
    out := args;
    if o.tag != "" { out := out + [TagFlag(platform), o.tag]; }
    if o.prerelease { out := out + [PrereleaseFlag(platform)]; }
    if o.noBackup { out := out + [NoBackupFlag(platform)]; }
  }

  /** The command for a request: an error when the script is missing, else the program, arguments and directory. */
  function CommandFor(fs: FileSystem, platform: string, input: CommandInput, layout: Layout): (r: Result<CommandSpec>)
    ensures r.Err? <==> ScriptPath(platform, layout) !in fs.existing
    ensures r.Err? ==> r.message == "Script not found: " + Render(ScriptPath(platform, layout))
    ensures r.Ok? ==> r.value.file == Program(platform) && r.value.cwd == layout.scriptsDir
    ensures r.Ok? ==> r.value.args == Arguments(platform, input, layout)
  {
    var script := ScriptPath(platform, layout);
    if script !in fs.existing then Err("Script not found: " + Render(script))
    else Ok(CommandSpec(Program(platform), Arguments(platform, input, layout), layout.scriptsDir))
  }

  /**
   * `buildCommand(platform, input, paths)`: fails when the script is missing,
   * otherwise grows the argument vector flag by flag.
   */
  method BuildCommand(fs: FileSystem, platform: string, input: CommandInput, layout: Layout)
    returns (r: Result<CommandSpec>)
    ensures r == CommandFor(fs, platform, input, layout)
  {
    var script := ScriptPath(platform, layout);
    if script !in fs.existing {
      return Err("Script not found: " + Render(script));
    }
    var prefix := Prefix(platform, Render(script), input.repository, Render(layout.configDir));
    var args := PushFlags(platform, prefix, OptionsOf(input));
    return Ok(CommandSpec(Program(platform), args, layout.scriptsDir));
  }

  // ---------------------------------------------------------------------
  // Reading an argument vector back
  // ---------------------------------------------------------------------

  /** What an argument vector says: script, repository, config directory and options. */
  datatype Invocation = Invocation(script: string, repo: string, config: string, options: Options)

  /** Reads the optional flags back, in their fixed order; a tag flag must carry a non-empty value. */
  function ParseFlags(platform: string, xs: seq<string>): Option<Options> {
    var hasTag := |xs| >= 2 && xs[0] == TagFlag(platform) && xs[1] != "";
    var tag := if hasTag then xs[1] else "";
    var afterTag := if hasTag then xs[2..] else xs;
    var pre := |afterTag| >= 1 && afterTag[0] == PrereleaseFlag(platform);
    var afterPre := if pre then afterTag[1..] else afterTag;
    var noBackup := |afterPre| >= 1 && afterPre[0] == NoBackupFlag(platform);
    var rest := if noBackup then afterPre[1..] else afterPre;
    if rest == [] then Some(Options(tag, pre, noBackup)) else None
  }

  /** Flags are read back as they were written. */
  lemma ParseFlagsOfFlags(platform: string, o: Options)
    ensures ParseFlags(platform, Flags(platform, o)) == Some(o)
  {
  }

  /** Only the flags of some options are read back, and they are read back as those options. */
  lemma FlagsOfParseFlags(platform: string, xs: seq<string>)
    requires ParseFlags(platform, xs).Some?
    ensures Flags(platform, ParseFlags(platform, xs).value) == xs
  {
  }

  /** Reads a whole argument vector back. */
  function ParseArguments(platform: string, args: seq<string>): Option<Invocation> {
    var n := PrefixLength(platform);
    if |args| < n then None
    else
      var script := if IsWindows(platform) then args[4] else args[0];
      var repo := if IsWindows(platform) then args[6] else args[2];
      var config := if IsWindows(platform) then args[8] else args[4];
      if args[..n] != Prefix(platform, script, repo, config) then None
      else match ParseFlags(platform, args[n..])
        case None => None
        case Some(o) => Some(Invocation(script, repo, config, o))
  }

  /** The argument vector is exactly the prefix then the flags of some request. */
  lemma ParseArgumentsRoundTrip(platform: string, i: Invocation)
    ensures ParseArguments(platform, Prefix(platform, i.script, i.repo, i.config) + Flags(platform, i.options)) == Some(i)
  {
    var args := Prefix(platform, i.script, i.repo, i.config) + Flags(platform, i.options);
    var n := PrefixLength(platform);
    assert args[..n] == Prefix(platform, i.script, i.repo, i.config);
    assert args[n..] == Flags(platform, i.options);
    ParseFlagsOfFlags(platform, i.options);
  }

  lemma ArgumentsOfParse(platform: string, args: seq<string>)
    requires ParseArguments(platform, args).Some?
    ensures var i := ParseArguments(platform, args).value;
      args == Prefix(platform, i.script, i.repo, i.config) + Flags(platform, i.options)
  {
    var n := PrefixLength(platform);
    FlagsOfParseFlags(platform, args[n..]);
    assert args == args[..n] + args[n..];
  }

  /**
   * What `buildCommand` produces reads back as the request: the script, the
   * repository, the config directory, and each optional flag present
   * exactly when its option is set.
   */
  lemma BuildCommandReadsBack(platform: string, input: CommandInput, layout: Layout)
    ensures ParseArguments(platform, Arguments(platform, input, layout)) ==
      Some(Invocation(Render(ScriptPath(platform, layout)), input.repository, Render(layout.configDir), OptionsOf(input)))
  {
    ParseArgumentsRoundTrip(platform,
      Invocation(Render(ScriptPath(platform, layout)), input.repository, Render(layout.configDir), OptionsOf(input)));
  }
}
