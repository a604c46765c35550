/**
 * The request handler of the relay (src/server.js): reading a bounded JSON
 * body, routing, validating an update request, and the module-level
 * `running` flag that turns away a second update while one is in flight.
 *
 * The handler runs in two steps split at `await runCommand(cmd)`: `Receive`
 * covers everything up to `running = true`, `Complete` covers the rest.
 * Other requests may be handled between the two steps.
 *
 * Note on interleaving: the source also awaits `parseJsonBody` between the
 * `running` test and `running = true`, so two update requests can both
 * pass the test; and its `finally` clears `running` even for a request that
 * failed validation and never set it, which can clear the flag while
 * another update still runs. This model treats the body read as one step
 * and does not capture that race.
 */
module Relay {
  import opened Results
  import opened Text
  import opened JsValues
  import opened Normalize
  import opened Paths
  import opened Command
  import opened Runner
  import opened StateReader

  /** `MAX_BODY`: 64 KiB of body text. */
  const MaxBody := 64 * 1024

  // ---------------------------------------------------------------------
  // parseJsonBody
  // ---------------------------------------------------------------------

  /** How the request stream ends: normally, or with a stream error. */
  datatype BodyEnd = Ended | Failed(message: string)

  /** A request body as the decoded chunks the stream delivers, then its end. */
  datatype Body = Body(chunks: seq<string>, end: BodyEnd)

  function Concat(chunks: seq<string>): string {
    if chunks == [] then "" else Concat(chunks[..|chunks| - 1]) + chunks[|chunks| - 1]
  }

  lemma {:induction false} ConcatPrefix(chunks: seq<string>, i: nat)
    requires i <= |chunks|
    ensures |Concat(chunks[..i])| <= |Concat(chunks)|
    decreases |chunks|
  {
    if i < |chunks| {
      var before := chunks[..|chunks| - 1];
      assert chunks[..i] == before[..i];
      ConcatPrefix(before, i);
    } else {
      assert chunks[..i] == chunks;
    }
  }

  /**
   * What `parseJsonBody` settles with: "Payload too large." once the text
   * exceeds `MaxBody`, the stream's error, `{}` for an empty body, the
   * parsed value, or "Invalid JSON body.".
   */
  function BodyOutcome(parseJson: string -> Option<Value>, body: Body): (r: Result<Value>)
    ensures |Concat(body.chunks)| > MaxBody ==> r == Err("Payload too large.")
    ensures |Concat(body.chunks)| <= MaxBody && body.end == Ended && Concat(body.chunks) == "" ==> r == Ok(Obj(map[]))
    ensures r.Ok? && Concat(body.chunks) != "" ==> parseJson(Concat(body.chunks)) == Some(r.value)
    ensures |Concat(body.chunks)| <= MaxBody && body.end.Failed? ==> r == Err(body.end.message)
    ensures |Concat(body.chunks)| <= MaxBody && body.end == Ended && Concat(body.chunks) != "" ==>
      (r.Ok? <==> parseJson(Concat(body.chunks)).Some?) && (r.Err? ==> r.message == "Invalid JSON body.")
  {
    var raw := Concat(body.chunks);
    if |raw| > MaxBody then Err("Payload too large.")
    else match body.end
      case Failed(m) => Err(m)
      case Ended =>
        if raw == "" then Ok(Obj(map[]))
        else match parseJson(raw)
          case None => Err("Invalid JSON body.")
          case Some(v) => Ok(v)
  }

  /** `parseJsonBody(req)`: accumulate the chunks, giving up at the first one that takes the text past the bound. */
  method ParseJsonBody(parseJson: string -> Option<Value>, body: Body) returns (r: Result<Value>)
    ensures r == BodyOutcome(parseJson, body)
  {
    var raw := "";
    var i := 0;
    while i < |body.chunks|
      invariant 0 <= i <= |body.chunks|
      invariant raw == Concat(body.chunks[..i])
      invariant |raw| <= MaxBody
    {
      raw := raw + body.chunks[i];
      i := i + 1;
      assert body.chunks[..i][..i - 1] == body.chunks[..i - 1];
      if |raw| > MaxBody {
        ConcatPrefix(body.chunks, i);
        return Err("Payload too large.");
      }
    }
    assert body.chunks[..i] == body.chunks;
    match body.end {
      case Failed(m) =>
        return Err(m);
      case Ended =>
        if raw == "" {
          return Ok(Obj(map[]));
        }
        var parsed := parseJson(raw);
        if parsed.None? {
          return Err("Invalid JSON body.");
        }
        return Ok(parsed.value);
    }
  }

  // ---------------------------------------------------------------------
  // Replies
  // ---------------------------------------------------------------------

  /** The JSON replies of the handler. */
  datatype Reply =
    | Preflight
    | Health(platform: string, port: int, running: bool)
    | Busy
    | BadRequest(error: string)
    | Failure(error: string)
    | ScriptFailed(code: int, stdout: string, stderr: string)
    | Updated(installedTag: string, stdout: string, stderr: string)
    | NotFound

  function Status(r: Reply): int {
    match r
    case Preflight => 204
    case Health(_, _, _) => 200
    case Busy => 409
    case BadRequest(_) => 400
    case Failure(_) => 500
    case ScriptFailed(_, _, _) => 500
    case Updated(_, _, _) => 200
    case NotFound => 404
  }

  /** The `ok` field of the reply. */
  predicate Succeeded(r: Reply) {
    r.Preflight? || r.Health? || r.Updated?
  }

  /** The `error` field of a failed reply. */
  function ErrorOf(r: Reply): string {
    match r
    case Busy => "Update already running."
    case BadRequest(e) => e
    case Failure(e) => e
    case ScriptFailed(code, _, _) => "Update script failed (exit " + IntToString(code) + ")."
    case NotFound => "Not found."
    case _ => ""
  }

  /** `(err && err.message) ? err.message : String(err)` for an `Error`: an empty message prints as "Error". */
  function ErrorText(message: string): (t: string)
    ensures t != ""
    ensures message != "" ==> t == message
  {
    if message != "" then message else "Error"
  }

  // ---------------------------------------------------------------------
  // The handler, as functions
  // ---------------------------------------------------------------------

  /** What the relay sees of its host. */
  datatype Host = Host(
    platform: string,
    port: int,
    cwd: Path,
    fs: FileSystem,
    conv: Conversions,
    parseJson: string -> Option<Value>)

  datatype Request = Request(verb: string, url: string, body: Body)

  /** What the spawned script does: its events, and the file system it leaves behind. */
  datatype ChildRun = ChildRun(events: seq<Event>, fsAfter: FileSystem)

  predicate IsPreflight(req: Request) { req.verb == "OPTIONS" }
  predicate IsHealth(req: Request) { req.verb == "GET" && req.url == "/health" }
  predicate IsUpdate(req: Request) { req.verb == "POST" && req.url == "/v1/update" }

  /** A request that got as far as spawning: the command, where to read the tag, and the requested tag. */
  datatype Launch = Launch(cmd: CommandSpec, stateFile: Path, releaseTag: string)

  /** The first half of a request: a reply, or a command to run. */
  datatype Admission = Replied(reply: Reply) | Launched(launch: Launch)

  /** `String(input.localRootPath || '').trim()`; the conversion may throw. */
  function LocalRootOf(host: Host, input: Value): (r: Result<string>)
    ensures r.Err? <==> TextOrEmpty(host.conv, Member(input, "localRootPath")).Err?
    ensures r.Ok? ==> r.value == Trim(TextOrEmpty(host.conv, Member(input, "localRootPath")).value)
  {
    var t := TextOrEmpty(host.conv, Member(input, "localRootPath"));
    if t.Err? then Err(t.message) else Ok(Trim(t.value))
  }

  /** `normalizeRepository(input.repository || '')`. */
  function RepositoryOf(host: Host, input: Value): Result<string> {
    NormalizeRepository(host.conv, OrElse(Member(input, "repository"), Str("")))
  }

  /** `normalizeReleaseTag(input.releaseTag || '')`. */
  function ReleaseTagOf(host: Host, input: Value): Result<string> {
    NormalizeReleaseTag(host.conv, OrElse(Member(input, "releaseTag"), Str("")))
  }

  /**
   * The body passes validation: it is an object-like value, its repository
   * normalises to `owner/repo`, its `localRootPath` is not blank, and none
   * of the three fields throws when converted to text.
   */
  predicate Acceptable(host: Host, input: Value) {
    && input != Null && input != Undefined
    && RepositoryOf(host, input).Ok? && RepositoryOf(host, input).value != ""
    && LocalRootOf(host, input).Ok? && LocalRootOf(host, input).value != ""
    && ReleaseTagOf(host, input).Ok?
  }

  /**
   * The validation of an update request, field by field in the source's
   * order. Reading a property of `null` and a conversion that throws are
   * caught by the handler and become 500s.
   */
  function ValidateInput(host: Host, input: Value): (a: Admission)
    ensures a.Replied? ==> (a.reply.BadRequest? || a.reply.Failure?) && a.reply.error != ""
    ensures (a.Replied? && a.reply.BadRequest?) <==>
      input != Null && input != Undefined &&
      (RepositoryOf(host, input) == Ok("") || (RepositoryOf(host, input).Ok? && LocalRootOf(host, input) == Ok("")))
    ensures !Acceptable(host, input) ==> a.Replied?
    ensures !Acceptable(host, input) && a.reply.Failure? && input != Null && input != Undefined ==>
      a.reply.error == ConversionError
    ensures Acceptable(host, input) ==>
      a == PrepareLaunch(host, LocalRootOf(host, input).value,
        CommandInputOf(input, RepositoryOf(host, input).value, ReleaseTagOf(host, input).value))
    ensures a.Launched? ==> IsOwnerRepo(RepositoryOf(host, input).value)
  {
    match ReadProperty(input, "repository")
    case Err(m) => Replied(Failure(ErrorText(m)))
    case Ok(_) =>
      var repository := RepositoryOf(host, input);
      if repository.Err? then Replied(Failure(ErrorText(repository.message)))
      else if repository.value == "" then Replied(BadRequest("Invalid repository (expected owner/repo)."))
      else
        var localRootPath := LocalRootOf(host, input);
        if localRootPath.Err? then Replied(Failure(ErrorText(localRootPath.message)))
        else if localRootPath.value == "" then Replied(BadRequest("localRootPath is required."))
        else
          var releaseTag := ReleaseTagOf(host, input);
          if releaseTag.Err? then Replied(Failure(ErrorText(releaseTag.message)))
          else PrepareLaunch(host, localRootPath.value, CommandInputOf(input, repository.value, releaseTag.value))
  }

  /** The command's inputs: the normalised repository and tag, and the two switches compared with `=== true`. */
  function CommandInputOf(input: Value, repository: string, releaseTag: string): (c: CommandInput)
    ensures c.repository == repository && c.releaseTag == releaseTag
    ensures c.includePrerelease <==> Member(input, "includePrerelease") == Bool(true)
    ensures c.noBackup <==> Member(input, "noBackup") == Bool(true)
  {
    CommandInput(repository, releaseTag, IsTrue(Member(input, "includePrerelease")), IsTrue(Member(input, "noBackup")))
  }

  /** `buildPaths` then `buildCommand`; a thrown error becomes a 500 carrying its message. */
  function PrepareLaunch(host: Host, localRootPath: string, input: CommandInput): (a: Admission)
    ensures a.Replied? ==> a.reply.Failure? && a.reply.error != ""
    ensures var paths := BuildPaths(host.fs, host.cwd, localRootPath);
      paths.Err? ==> a == Replied(Failure(ErrorText(paths.message)))
    ensures var paths := BuildPaths(host.fs, host.cwd, localRootPath);
      paths.Ok? ==>
        var cmd := CommandFor(host.fs, host.platform, input, paths.value);
        && (cmd.Err? ==> a == Replied(Failure(ErrorText(cmd.message))))
        && (cmd.Ok? ==> a == Launched(Launch(cmd.value, paths.value.stateFile, input.releaseTag)))
  {
    match BuildPaths(host.fs, host.cwd, localRootPath)
    case Err(m) => Replied(Failure(ErrorText(m)))
    case Ok(layout) =>
      match CommandFor(host.fs, host.platform, input, layout)
      case Err(m) => Replied(Failure(ErrorText(m)))
      case Ok(cmd) => Launched(Launch(cmd, layout.stateFile, input.releaseTag))
  }

  /** Everything the handler does before awaiting the script, given the current `running` flag. */
  function Admit(host: Host, running: bool, req: Request): (a: Admission)
    ensures a.Launched? ==> IsUpdate(req) && !running
    ensures !IsPreflight(req) && IsUpdate(req) && !running ==>
      a.Launched? || a.reply.BadRequest? || a.reply.Failure?
    ensures a.Replied? && (a.reply.BadRequest? || a.reply.Failure?) ==> a.reply.error != ""
    ensures IsPreflight(req) ==> a == Replied(Preflight)
    ensures !IsPreflight(req) && IsHealth(req) ==> a == Replied(Health(host.platform, host.port, running))
    ensures !IsPreflight(req) && IsUpdate(req) && running ==> a == Replied(Busy)
    ensures !IsPreflight(req) && !IsHealth(req) && !IsUpdate(req) ==> a == Replied(NotFound)
  {
    if IsPreflight(req) then Replied(Preflight)
    else if IsHealth(req) then Replied(Health(host.platform, host.port, running))
    else if IsUpdate(req) then
      if running then Replied(Busy)
      else match BodyOutcome(host.parseJson, req.body)
        case Err(m) => Replied(Failure(ErrorText(m)))
        case Ok(input) => ValidateInput(host, input)
    else Replied(NotFound)
  }

  /** Everything after the script settles: a rejection or a non-zero exit is a 500, exit 0 reports the installed tag. */
  function Conclude(host: Host, launch: Launch, child: ChildRun): (r: Reply)
    ensures r.Updated? || r.ScriptFailed? || r.Failure?
    ensures r.ScriptFailed? ==> r.code != 0
    ensures r.Failure? ==> r.error != ""
  {
    match Settled(child.events)
    case Rejected(m) => Failure(ErrorText(m))
    case Resolved(code, out, err) =>
      if code != 0 then ScriptFailed(code, out, err)
      else Updated(ReadInstalledTag(child.fsAfter, host.conv, host.parseJson, launch.stateFile, launch.releaseTag), out, err)
  }

  /**
   * The reply to a launched update, read off the child's events: the first
   * error or close decides, and the timer decides when neither comes. A
   * close with code 0 (or no code) reports the installed tag with both
   * output tails; any other code is a script failure with the same tails.
   */
  lemma ConcludeByEvents(host: Host, launch: Launch, child: ChildRun)
    ensures var r := Conclude(host, launch, child);
      FirstSettling(child.events).None? ==> r == Failure(TimeoutMessage)
    ensures var r := Conclude(host, launch, child);
      FirstSettling(child.events).Some? ==>
        var i := FirstSettling(child.events).value;
        var e := child.events[i];
        var out := Tail(OutText(child.events[..i]));
        var err := Tail(ErrText(child.events[..i]));
        && (e.TimerFired? ==> r == Failure(TimeoutMessage))
        && (e.ChildError? ==> r == Failure(ErrorText(e.message)))
        && (e.Close? && ExitCode(e.code) != 0 ==> r == ScriptFailed(ExitCode(e.code), out, err))
        && (e.Close? && ExitCode(e.code) == 0 ==>
              r == Updated(ReadInstalledTag(child.fsAfter, host.conv, host.parseJson, launch.stateFile, launch.releaseTag), out, err))
  {
    TimedRun(child.events);
  }

  /** The whole reply to a request handled without interruption. */
  function Respond(host: Host, running: bool, req: Request, child: ChildRun): Reply
  {
    match Admit(host, running, req)
    case Replied(r) => r
    case Launched(l) => Conclude(host, l, child)
  }

  /** A reply's origin: the first half's reply, or the conclusion of the launched script. */
  lemma RespondCases(host: Host, running: bool, req: Request, child: ChildRun)
    ensures var a := Admit(host, running, req);
      Respond(host, running, req, child) == if a.Launched? then Conclude(host, a.launch, child) else a.reply
  {
  }

  /** 204 answers exactly the preflight requests. */
  lemma PreflightStatus(host: Host, running: bool, req: Request, child: ChildRun)
    ensures Status(Respond(host, running, req, child)) == 204 <==> IsPreflight(req)
  {
    RespondCases(host, running, req, child);
  }

  /** A health check reports the flag with 200. */
  lemma HealthStatus(host: Host, running: bool, req: Request, child: ChildRun)
    requires !IsPreflight(req) && IsHealth(req)
    ensures Respond(host, running, req, child) == Health(host.platform, host.port, running)
  {
    RespondCases(host, running, req, child);
  }

  /** 409 answers exactly the update requests that arrive while a script runs. */
  lemma BusyStatus(host: Host, running: bool, req: Request, child: ChildRun)
    ensures Status(Respond(host, running, req, child)) == 409 <==> !IsPreflight(req) && IsUpdate(req) && running
  {
    RespondCases(host, running, req, child);
  }

  /** 404 answers exactly the requests that match no route. */
  lemma NotFoundStatus(host: Host, running: bool, req: Request, child: ChildRun)
    ensures Status(Respond(host, running, req, child)) == 404 <==> !IsPreflight(req) && !IsHealth(req) && !IsUpdate(req)
  {
    RespondCases(host, running, req, child);
  }

  /**
   * The `ok` field is true exactly for the 2xx replies, and every reply with
   * `ok: false` carries a non-empty `error`.
   */
  lemma ReplyFields(host: Host, running: bool, req: Request, child: ChildRun)
    ensures var r := Respond(host, running, req, child);
      (Succeeded(r) <==> Status(r) < 300) && (Succeeded(r) <==> ErrorOf(r) == "")
  {
    RespondCases(host, running, req, child);
  }

  /** An update request let through the gate ends in 200, 400 or 500; a failed script's code is never 0. */
  lemma UpdateStatus(host: Host, req: Request, child: ChildRun)
    requires IsUpdate(req)
    ensures var r := Respond(host, false, req, child);
      Status(r) in {200, 400, 500} && (r.ScriptFailed? ==> r.code != 0)
  {
    RespondCases(host, false, req, child);
  }

  // ---------------------------------------------------------------------
  // The server, as a class
  // ---------------------------------------------------------------------

  class RelayServer {
    const host: Host
    /** Whether an update script is running. */
    var running: bool

    constructor (host: Host)
      ensures this.host == host && !running
    {
      this.host := host;
      running := false;
    }

    /** The handler up to `running = true`; `finally` clears the flag on every update request that stops here. */
    method Receive(req: Request) returns (a: Admission)
      modifies this
      ensures a == Admit(host, old(running), req)
      ensures running == (a.Launched? || old(running))
    {
      if req.verb == "OPTIONS" {
        return Replied(Preflight);
      }
      if req.verb == "GET" && req.url == "/health" {
        return Replied(Health(host.platform, host.port, running));
      }
      if req.verb == "POST" && req.url == "/v1/update" {
        if running {
          return Replied(Busy);
        }
        var input := ParseJsonBody(host.parseJson, req.body);
        if input.Err? {
          a := Replied(Failure(ErrorText(input.message)));
        } else {
          a := ValidateInput(host, input.value);
        }
        if a.Launched? {
          running := true;
        } else {
          running := false;
        }
        return a;
      }
      return Replied(NotFound);
    }

    /** The handler from `await runCommand(cmd)` on: the script's settlement becomes the reply, and `finally` clears the flag. */
    method Complete(launch: Launch, child: ChildRun) returns (r: Reply)
      modifies this
      ensures r == Conclude(host, launch, child)
      ensures !running
    {
      var settlement, _ := RunCommand(child.events);
      match settlement {
        case Rejected(m) =>
          r := Failure(ErrorText(m));
        case Resolved(code, out, err) =>
          if code != 0 {
            r := ScriptFailed(code, out, err);
          } else {
            var tag := ReadInstalledTag(child.fsAfter, host.conv, host.parseJson, launch.stateFile, launch.releaseTag);
            r := Updated(tag, out, err);
          }
      }
      running := false;
    }

    /** A request handled from start to finish with nothing in between. */
    method Handle(req: Request, child: ChildRun) returns (r: Reply)
      modifies this
      ensures r == Respond(host, old(running), req, child)
      ensures running == old(running)
    {
      var a := Receive(req);
      match a {
        case Replied(reply) =>
          r := reply;
        case Launched(l) =>
          r := Complete(l, child);
      }
    }
  }

  // ---------------------------------------------------------------------
  // Properties of the handler
  // ---------------------------------------------------------------------

  /**
   * An update request gets 400 exactly when its body is a JSON value other
   * than `null`, and its repository is invalid, or it is valid and the
   * `localRootPath` is blank (a field whose conversion throws gives 500).
   */
  lemma BadRequestExactly(host: Host, req: Request, child: ChildRun)
    requires IsUpdate(req)
    ensures Status(Respond(host, false, req, child)) == 400 <==>
      var body := BodyOutcome(host.parseJson, req.body);
      body.Ok? && body.value != Null && body.value != Undefined &&
      (RepositoryOf(host, body.value) == Ok("") ||
       (RepositoryOf(host, body.value).Ok? && LocalRootOf(host, body.value) == Ok("")))
  {
    RespondCases(host, false, req, child);
    var body := BodyOutcome(host.parseJson, req.body);
    if body.Ok? {
      assert Admit(host, false, req) == ValidateInput(host, body.value);
    } else {
      assert Admit(host, false, req) == Replied(Failure(ErrorText(body.message)));
    }
  }

  /**
   * A body that passes validation launches the script in the layout under
   * its local root, with the command built for that layout.
   */
  lemma ValidatedLaunch(host: Host, input: Value)
    requires ValidateInput(host, input).Launched?
    ensures Acceptable(host, input)
    ensures var root := LocalRootOf(host, input).value;
      var launch := ValidateInput(host, input).launch;
      && BuildPaths(host.fs, host.cwd, root) == Ok(LayoutOf(RootOf(host.cwd, root)))
      && launch.stateFile == LayoutOf(RootOf(host.cwd, root)).stateFile
      && launch.cmd.cwd == LayoutOf(RootOf(host.cwd, root)).scriptsDir
      && launch.cmd.file == Program(host.platform)
  {
    var a := ValidateInput(host, input);
    assert Acceptable(host, input);
    var root := LocalRootOf(host, input).value;
    var command := CommandInputOf(input, RepositoryOf(host, input).value, ReleaseTagOf(host, input).value);
    assert a == PrepareLaunch(host, root, command);
    var paths := BuildPaths(host.fs, host.cwd, root);
    assert paths.Ok?;
    var cmd := CommandFor(host.fs, host.platform, command, paths.value);
    assert cmd.Ok?;
    assert a.launch == Launch(cmd.value, paths.value.stateFile, command.releaseTag);
  }

  /**
   * The gate opens only for a valid request: the body parsed and passed
   * validation, the repository normalised to `owner/repo`, the layout under
   * the local root exists, and the command was built for that layout.
   */
  lemma LaunchedOnlyWhenValid(host: Host, running: bool, req: Request)
    requires Admit(host, running, req).Launched?
    ensures IsUpdate(req) && !running
    ensures BodyOutcome(host.parseJson, req.body).Ok?
    ensures Acceptable(host, BodyOutcome(host.parseJson, req.body).value)
    ensures var input := BodyOutcome(host.parseJson, req.body).value;
      var root := LocalRootOf(host, input).value;
      var launch := Admit(host, running, req).launch;
      && IsOwnerRepo(RepositoryOf(host, input).value)
      && BuildPaths(host.fs, host.cwd, root) == Ok(LayoutOf(RootOf(host.cwd, root)))
      && launch.stateFile == LayoutOf(RootOf(host.cwd, root)).stateFile
      && launch.cmd.cwd == LayoutOf(RootOf(host.cwd, root)).scriptsDir
      && launch.cmd.file == Program(host.platform)
  {
    var body := BodyOutcome(host.parseJson, req.body);
    assert body.Ok?;
    assert Admit(host, running, req) == ValidateInput(host, body.value);
    ValidatedLaunch(host, body.value);
  }

  /** The confinement error of `buildPaths` never reaches a client through the handler's validation. */
  lemma NoInvalidRootReply(host: Host, localRootPath: string, input: CommandInput)
    ensures PrepareLaunch(host, localRootPath, input) != Replied(Failure("Invalid local root path."))
  {
    BuildPathsNeverInvalid(host.fs, host.cwd, localRootPath);
    var paths := BuildPaths(host.fs, host.cwd, localRootPath);
    if paths.Ok? {
      var cmd := CommandFor(host.fs, host.platform, input, paths.value);
      if cmd.Err? {
        assert cmd.message[0] != "Invalid local root path."[0];
      }
    }
  }

  /**
   * Two update requests, the second arriving while the first one's script
   * runs: the second is turned away with 409 and a health check in between
   * reports the run, the first still gets its own reply, and afterwards the
   * gate is open again.
   */
  method OverlappingUpdates(host: Host, first: Request, second: Request, child: ChildRun, third: Request)
    returns (admitted: Admission, busy: Reply, health: Reply, done: Reply, next: Admission)
    requires IsUpdate(second)
    ensures admitted == Admit(host, false, first)
    ensures admitted.Launched? ==> busy == Busy && Status(busy) == 409
    ensures admitted.Launched? ==> health == Health(host.platform, host.port, true)
    ensures admitted.Launched? ==> done == Conclude(host, admitted.launch, child)
    ensures admitted.Launched? ==> done == Respond(host, false, first, child)
    ensures next == Admit(host, false, third)
  {
    var server := new RelayServer(host);
    admitted := server.Receive(first);
    if admitted.Launched? {
      assert server.running;
      var turnedAway := server.Receive(second);
      assert turnedAway == Replied(Busy);
      busy := turnedAway.reply;
      var healthCheck := Request("GET", "/health", Body([], Ended));
      assert !IsPreflight(healthCheck) && IsHealth(healthCheck);
      var status := server.Receive(healthCheck);
      assert status == Replied(Health(host.platform, host.port, true));
      health := status.reply;
      done := server.Complete(admitted.launch, child);
      RespondCases(host, false, first, child);
    } else {
      busy, health, done := admitted.reply, admitted.reply, admitted.reply;
    }
    next := server.Receive(third);
  }
}
