# StatNerd Relay — a verified model

StatNerd Relay is a small loopback HTTP service plus an Electron desktop
shell. The service updates a local Grocy add-on installation: it validates an
update request, resolves a fixed directory layout under a local root, builds a
per-platform update command, runs it with bounded output capture and a
settle-once timeout, and reports the installed release tag. The desktop shell
keeps a small settings object that it repairs on every load and save.

This project models that core in Dafny and proves what the code promises:

- `results.dfy`: `Option` and `Result`.
- `js_values.dfy`: the JavaScript values the service handles and the coercions
  it relies on (`v || w`, `String(v)`, `Number(v)`, `v === true`, `v.key`).
  `String(v)` and `Number(v)` throw a TypeError for a parsed object that has
  its own `toString` property, and so for an array holding one; the model
  carries that error wherever the source converts a request or settings field.
- `text.dfy`: `trim`, `split`, `join`, prefix and suffix tests, and number
  formatting.
- `normalize.dfy`: `normalizeRepository` and `normalizeReleaseTag`.
- `paths.dfy`: absolute POSIX paths as sequences of segments, `path.resolve`,
  `path.relative`, `ensureInsideRoot` and `buildPaths`, with the file system
  reduced to the set of existing paths and their readable contents.
- `command.dfy`: `buildCommand`, including the argument list grown by `push`,
  and a parser that reads the argument list back.
- `runner.dfy`: the bookkeeping of `runCommand`. A class receives the child's
  events one at a time. It keeps the stdout and stderr tails and settles once.
  It is proved against a specification written over the event history.
- `state_reader.dfy`: `readInstalledTag`.
- `relay.dfy`: `parseJsonBody` as a loop over the body's chunks, the request
  handler as functions, and a `RelayServer` class that holds the `running`
  gate.
- `settings.dfy`: `normalizeState`, the merge step of `saveState`, and `tr`
  from the desktop shell.

The handler is split at its one long `await`. `RelayServer.Receive` covers
routing, validation and command building, and sets `running`.
`RelayServer.Complete` concludes a launched run and clears `running`.
`RelayServer.Handle` is the two halves back to back. The child's behaviour is
an input: the sequence of events it produces and the file system it leaves
behind.

Two behaviours of the code are worth knowing:

- `normalizeRepository` strips an `http://` as well as an `https://` GitHub
  prefix, in any letter case.
- It strips one trailing `.git` even from a pair whose repository name itself
  ends in `.git`. So it is not idempotent: `a/b.git.git` becomes `a/b.git`,
  which becomes `a/b`.

## Model

| member | source | states |
|---|---|---|
| JsValues.ToText | src/server.js:30 | `String(v)`: a plain object gives `[object Object]` unless it has an own `toString` property, and then it throws `Cannot convert object to primitive value`; a string gives itself; other primitives never throw; an array throws exactly when an element does |
| JsValues.TextOrEmpty | src/server.js:30 | `String(v \|\| '')`: a falsy value gives `''`, a truthy one converts as `String(v)`, a string is itself |
| JsValues.ToNumber | src/main.js:57 | `Number(v)` throws exactly when `String(v)` does, with the same TypeError; a number converts to itself |
| JsValues.ReadProperty | src/server.js:224 | reading a property of `null` or `undefined` fails (the handler reports it as a 500), and otherwise gives the own property or `undefined` |
| Normalize.StripGithubPrefix | src/server.js:32 | the text is unchanged exactly when it starts with neither `https://github.com/` nor `http://github.com/` in any letter case; otherwise exactly that prefix is removed and the rest kept |
| Normalize.StripGitSuffix | src/server.js:33 | the text is unchanged exactly when it does not end in `.git` in any letter case; otherwise exactly those four characters are removed from the end |
| Normalize.StripSlashes | src/server.js:34 | the text is its result with some slashes before and some after, and the result neither starts nor ends with `/` |
| Normalize.NonEmptyPieces | src/server.js:35 | `filter(Boolean)` keeps exactly the non-empty segments |
| Normalize.NonEmptyPiecesAppend | src/server.js:35 | filtering keeps the order: it distributes over concatenation |
| Normalize.OwnerRepoOf | src/server.js:36-40 | fewer than two segments give `''`; otherwise the result is non-empty exactly when both of the first two segments are names, and then it is `owner/repo` from those two, later segments dropped |
| Normalize.NormalizeRepositoryText | src/server.js:30-41 | the result is `''` or an `owner/repo` pair of two names over `[A-Za-z0-9_.-]` |
| Normalize.NormalizeRepository | src/server.js:29-41 | after `String(value \|\| '')`: `''` or an `owner/repo` pair; a falsy value gives `''`; a string normalises as text; it throws exactly when the conversion does |
| Normalize.SegmentsOfWrapped | src/server.js:30-35 | a pair, bare or behind an http(s) GitHub URL, with or without `.git`, splits into exactly its two names |
| Normalize.RepositoryFromUrl | src/server.js:29-41 | every such spelling of a valid pair normalises to `owner/repo` |
| Normalize.RepositoryExample | src/server.js:29-41 | `https://github.com/Raph563/Grocy.git` gives `Raph563/Grocy` |
| Normalize.BlankRepositoryIsInvalid | src/server.js:30-36 | blank text gives `''` |
| Normalize.OwnerRepoIsFixedPoint | src/server.js:29-41 | a valid pair that does not end in `.git` is its own normal form |
| Normalize.RepositoryStableUnlessGitSuffix | src/server.js:29-41 | normalising twice equals normalising once unless the first result ends in `.git` |
| Normalize.RepositoryNotIdempotent | src/server.js:33 | `a/b.git.git` gives `a/b.git`, and that gives `a/b` |
| Normalize.NormalizeTagText | src/server.js:44-46 | the tag is `''` exactly when the trimmed input is blank; otherwise it starts with `v`, ends with the trimmed input and is at most one character longer; a trimmed input that already starts with `v` is kept |
| Normalize.NormalizeReleaseTag | src/server.js:43-47 | after `String(value \|\| '')`: `''` or a tag starting with `v`; a falsy value gives `''`; a string normalises as text; it throws exactly when the conversion does |
| Normalize.TagTextIdempotent | src/server.js:43-47 | normalising a tag twice equals normalising it once |
| Normalize.ReleaseTagIdempotent | src/server.js:43-47 | the same, through the value coercion, whenever the first call does not throw |
| Normalize.ReleaseTagGainsPrefix | src/server.js:46 | `1.2.3` gives `v1.2.3` |
| Normalize.ReleaseTagKeepsPrefix | src/server.js:46 | `v1.2.3` is unchanged |
| Paths.ResolveRender | src/server.js:50-51 | resolving the text of a resolved path gives that path back, whatever the working directory |
| Paths.ClimbingStartsWithDots | src/server.js:52-53 | a relative path that climbs out of the root starts with `..` |
| Paths.InsideRootCharacterised | src/server.js:49-54 | `ensureInsideRoot` holds exactly when the root is a prefix of the candidate and the first segment below the root does not start with `..`; both directions |
| Paths.DescendantIsConfined | src/server.js:49-54 | a path below the root whose first segment does not start with `..` passes the check |
| Paths.LayoutOf | src/server.js:59-72 | scriptsDir is root/addon/scripts, configDir root/config, dataDir root/config/data, stateFile dataDir/grocy-addon-state.json |
| Paths.LayoutIsConfined | src/server.js:59-62 | scriptsDir and configDir always pass `ensureInsideRoot` |
| Paths.BuildPaths | src/server.js:56-74 | on success the layout is the one under the resolved trimmed root |
| Paths.BuildPathsOutcome | src/server.js:57-66 | failures come in order: root missing, then scripts directory missing, then data directory missing, each with its message; otherwise success |
| Paths.BuildPathsNeverInvalid | src/server.js:62-64 | `Invalid local root path.` is never raised |
| Command.ScriptPath | src/server.js:83-107 | the script is the platform's script name inside scriptsDir |
| Command.CommandFor | src/server.js:76-123 | it fails exactly when the script is missing, with `Script not found: <script>`; otherwise the program is `powershell` or `/bin/sh`, cwd is scriptsDir and the arguments are the platform prefix followed by the chosen flags |
| Command.PushFlags | src/server.js:96-117 | pushing the flags appends tag, prerelease and no-backup flags, in that order, to the arguments |
| Command.BuildCommand | src/server.js:76-123 | the imperative builder computes `CommandFor` |
| Command.ParseFlagsOfFlags | src/server.js:96-117 | the flags read back as the options they came from |
| Command.FlagsOfParseFlags | src/server.js:96-117 | every flag list that reads back was produced by those options |
| Command.ParseArgumentsRoundTrip | src/server.js:85-117 | an argument list reads back as its script, repository, config directory and options |
| Command.ArgumentsOfParse | src/server.js:85-117 | every argument list that reads back is that prefix followed by those flags |
| Command.BuildCommandReadsBack | src/server.js:76-123 | the arguments built for a request read back as its script, repository, configDir and options (tag, prerelease, no-backup) |
| Runner.ExitCode | src/server.js:159 | a close with a code reports that code, and a `null` code reports 0 |
| Runner.TailBounds | src/server.js:141-148 | a captured stream is at most 20000 characters and a suffix of all it received; it is all of it while that fits, and exactly 20000 characters otherwise |
| Runner.TailOfTail | src/server.js:142-143 | trimming after every chunk equals trimming the whole concatenation once |
| Runner.SettleOn | src/server.js:135-160 | an event settles the run exactly when it is an error, a close or the timer |
| Runner.FirstSettling | src/server.js:134-160 | it finds the first settling event, or there is none |
| Runner.QuietRun | src/server.js:134-160 | with no settling event the run is unsettled and the child not killed |
| Runner.FirstSettlingWins | src/server.js:134-160 | the outcome is decided by the first settling event alone, and the child is killed exactly when that event is the timer |
| Runner.SettleOnce | src/server.js:134-160 | once settled, later events change neither the outcome nor the kill |
| Runner.AppendEvent | src/server.js:141-160 | each event extends the captured text and the outcome by exactly one step |
| Runner.Run.constructor | src/server.js:132-134 | the run starts with empty buffers, unsettled |
| Runner.Run.OnStdout | src/server.js:141-144 | stdout becomes the tail of its old value plus the chunk; nothing else changes |
| Runner.Run.OnStderr | src/server.js:145-148 | stderr becomes the tail of its old value plus the chunk; nothing else changes |
| Runner.Run.OnError | src/server.js:149-154 | an unsettled run is rejected with the error; a settled one is left alone |
| Runner.Run.OnClose | src/server.js:155-160 | an unsettled run resolves with the exit code and the captured tails; a settled one is left alone |
| Runner.Run.OnTimer | src/server.js:135-140 | an unsettled run is killed and rejected with `Update timeout after 1200s` (the timeout in whole seconds); a settled one is left alone |
| Runner.Run.Deliver | src/server.js:141-160 | each event keeps the run's fields equal to the specification over the history |
| Runner.TimedRun | src/server.js:125-162 | the run's result is the first settling event's outcome, and the timeout when the child never settles it |
| Runner.RunCommand | src/server.js:125-162 | replaying the child's events and then the timer yields that result and kills the child exactly when the timer wins |
| StateReader.ReadInstalledTag | src/server.js:164-173 | a missing or unparsable state file gives the fallback, and so does a stored tag whose conversion throws; otherwise the normalised stored tag when non-empty, else the fallback; the result is the fallback or starts with `v` |
| StateReader.InstalledTagIsNormalised | src/server.js:164-173 | with a normalised fallback, as the handler passes, the reported tag is normalised |
| Relay.BodyOutcome | src/server.js:175-198 | a body over 65536 characters gives `Payload too large.`; within the bound, a stream error gives its message, an empty body gives `{}`, and any other body gives the parsed value or `Invalid JSON body.` when the parser refuses it |
| Relay.ParseJsonBody | src/server.js:175-198 | the loop that accumulates chunks computes `BodyOutcome` |
| Relay.ErrorText | src/server.js:265 | an error message is reported as is, and an empty one never gives an empty error |
| Relay.ValidateInput | src/server.js:224-241 | a body that is neither `null` nor `undefined` gets 400 exactly when the repository is invalid, or valid with a blank `localRootPath`; a body that passes every check goes on to `buildPaths` and `buildCommand` with the normalised repository, root and tag; any other outcome is a 500, with the conversion TypeError when a field throws; a reply always carries an error |
| Relay.LocalRootOf | src/server.js:229 | the root is the trimmed text of `localRootPath`, and it throws exactly when the conversion does |
| Relay.CommandInputOf | src/server.js:234-240 | the command gets the normalised repository and tag, and each switch is on exactly when the body holds `true` for it |
| Relay.PrepareLaunch | src/server.js:234-241 | an error from `buildPaths` or from `buildCommand` becomes a 500 carrying its message; otherwise the launch uses the layout `buildPaths` returned, the command built for it and the requested tag |
| Relay.Admit | src/server.js:200-243 | OPTIONS is answered 204, GET /health is answered with the flag, an update while running is answered 409, anything else 404; a launch happens only for an update when not running |
| Relay.Conclude | src/server.js:244-267 | a run ends in 200 with the installed tag, 500 with a non-zero exit code and the output, or 500 with a non-empty error |
| Relay.ConcludeByEvents | src/server.js:134-267 | read off the child's events: with no error or close, or the timer first, the reply is the timeout 500; an error first gives a 500 with its message; a close with a non-zero code gives the script failure with that code and both output tails; a close with code 0 or none gives 200 with the installed tag and the tails |
| Relay.RespondCases | src/server.js:200-273 | the reply is the first half's reply, or the conclusion of the launched run |
| Relay.PreflightStatus | src/server.js:201-204 | 204 answers exactly the OPTIONS requests |
| Relay.HealthStatus | src/server.js:206-215 | a health check reports platform, port and the `running` flag |
| Relay.BusyStatus | src/server.js:217-221 | 409 answers exactly the updates that arrive while running |
| Relay.NotFoundStatus | src/server.js:273 | 404 answers exactly the requests that match no route |
| Relay.UpdateStatus | src/server.js:222-267 | an update let through the gate ends in 200, 400 or 500, and a failed script's exit code is never 0 |
| Relay.ReplyFields | src/server.js:200-273 | `ok` is true exactly for the replies with a status below 300, and exactly those carry no error |
| Relay.BadRequestExactly | src/server.js:222-233 | 400 answers exactly the updates whose body is a JSON value other than `null`, with an invalid repository, or a valid one and a blank `localRootPath` |
| Relay.LaunchedOnlyWhenValid | src/server.js:222-243 | `running` is set only after the body parsed and passed every check, the repository was `owner/repo`, the layout exists and the command was built for that layout |
| Relay.ValidatedLaunch | src/server.js:224-241 | a body that launches passed every check, and its launch runs in the layout under its root with the command built there |
| Relay.NoInvalidRootReply | src/server.js:62-64 | the handler never answers `Invalid local root path.` from its path resolution |
| Relay.RelayServer.constructor | src/server.js:15 | the server starts not running |
| Relay.RelayServer.Receive | src/server.js:217-243 | the first half answers as `Admit` does, and sets `running` exactly when it launches |
| Relay.RelayServer.Complete | src/server.js:244-270 | the second half answers as `Conclude` does, and `running` is false afterwards |
| Relay.RelayServer.Handle | src/server.js:200-273 | a whole request answers as `Respond` does, and leaves `running` as it found it |
| Relay.OverlappingUpdates | src/server.js:217-270 | while a launched update runs, a second update gets 409 and health reports running; after it completes the server accepts the next update as if fresh |
| Settings.DefaultState | src/main.js:9-15 | the defaults hold exactly the five fields |
| Settings.PortField | src/main.js:57-58 | the port is the given number when truthy and in [1024, 65535], else `DEFAULT_PORT`; it throws exactly when a truthy value's `Number` conversion does |
| Settings.DefaultPortKept | src/main.js:57-58 | repairing `DEFAULT_PORT` gives it back, in range or not |
| Settings.RepositoryField | src/main.js:59 | the repository is never empty: the trimmed given text, or `Raph563/Grocy` when falsy or blank; it throws exactly when a truthy value's conversion does |
| Settings.LocalRootField | src/main.js:60 | the root path is `''` when falsy and the trimmed text of a truthy value, so always trimmed; it throws exactly when that conversion does |
| Settings.LanguageField | src/main.js:61 | the language is `en` exactly when given `'en'`, else `fr` |
| Settings.Merged | src/main.js:56 | the merged object has the five fields and every input property |
| Settings.MergedField | src/main.js:56 | each of the five fields comes from the input when present, else from the defaults |
| Settings.NormalizeField | src/main.js:57-62 | each of the five fields gets its repair, only the port, repository and root path can throw, and every other property is kept |
| Settings.NormalizeState | src/main.js:55-64 | it throws exactly when one of the three conversions does; otherwise the result has the five fields and the input's properties, each repaired as above |
| Settings.StateThrows | src/main.js:55-60 | it throws exactly when the input gives the port, the repository or the root path a truthy value whose conversion throws; the defaults always convert |
| Settings.NormalizedPort | src/main.js:57-58 | when it does not throw: a given truthy in-range port is kept; missing, 0, non-numeric and out-of-range ports give `DEFAULT_PORT` |
| Settings.NormalizedRepository | src/main.js:59 | when it does not throw: the trimmed given repository, or `Raph563/Grocy` when missing or blank |
| Settings.NormalizedLocalRoot | src/main.js:60 | when it does not throw: the trimmed given root path, or `''` when missing |
| Settings.NormalizedLanguage | src/main.js:61 | when it does not throw: `en` exactly when the input says `'en'`, else `fr` |
| Settings.NormalizedLaunchAtStartup | src/main.js:62 | when it does not throw: true exactly when the input is exactly `true` |
| Settings.OtherPropertiesKept | src/main.js:56 | when it does not throw, other properties pass through unchanged |
| Settings.PortIdempotent | src/main.js:57-58 | repairing a repaired port changes nothing and does not throw |
| Settings.RepositoryIdempotent | src/main.js:59 | repairing a repaired repository changes nothing and does not throw |
| Settings.FieldIdempotent | src/main.js:57-62 | repairing any repaired property changes nothing and does not throw |
| Settings.NormalizeIdempotent | src/main.js:55-64 | normalising a normalised state does not throw and changes nothing |
| Settings.SaveMerge | src/main.js:76 | the save throws exactly when a conversion of the merged object does; otherwise the saved state has the five fields and every property of the old state and the patch |
| Settings.SaveOverlay | src/main.js:76 | over a normalised state, a save throws only because of a patched field; otherwise patched properties get their repaired patch values and all others keep their values |
| Settings.Tr | src/main.js:46-49 | the English entry only for language exactly `'en'`, else the French entry, else the key |
| Settings.TablesCoverSameKeys | src/main.js:23-44 | both tables label the same keys |

## Left out

- Paths are absolute POSIX paths. Windows drive letters, UNC paths and backslashes are not modelled.
- `fs.existsSync` and `fs.readFileSync` are a set of existing paths and a map of readable contents. A file that exists but cannot be read is one missing from the map.
- `JSON.parse` is a partial function passed in. Number-to-text and text-to-number conversions are passed in too.
- Lengths are counted in characters. The source counts UTF-16 code units, and UTF-8 decoding of chunks is assumed done.
- Concurrent requests are not modelled. The `running` check and the `await parseJsonBody` that follows it let two updates pass the gate together. The `finally` also clears `running` for requests that never set it. The handler is proved for requests taken one at a time.
- HTTP plumbing is not modelled: `createServer`, `listen`, `writeJson` and its headers, and the response bodies beyond their fields.
- `spawn`, `child.kill` and the wall-clock meaning of the 20-minute timer are not modelled. The timer is an event that is always delivered after the child's own events.
- The `STATNERD_RELAY_PORT` variable and `DEFAULT_PORT` are parameters. `./relay-server` is not part of this model.
- `normalizeState` takes the input's own properties. An input that is not a plain object is not modelled.
- Settings.NormalizeState builds the result in one step per property. The source assigns the five fields one after another and stops at the first that throws. The two agree because each field's repair reads only that field, and the model tests the three that can throw in the source's order.
- Conversions of numbers and strings (`String(1.5)`, `Number(" 8080 ")`) are passed in. Only the TypeError for objects that hide `toString` is modelled as a thrown error; a getter or a callable property cannot come from `JSON.parse`.
- `saveState` lets a thrown conversion escape to its caller with the state unchanged; `loadState`, which catches it and falls back to the defaults, is not part of this model.
- Settings.RepositoryField returns the default directly for a falsy value. The source trims the default first, which gives the same text (`DefaultRepositoryIsTrimmed`).
- Settings.Tr: keys inherited from `Object.prototype` are not modelled.
- Relay.Respond has no contract of its own. Its properties are the status lemmas beside it.
- Settings.NormalizeIdempotent holds for every `DEFAULT_PORT`, not only for one in range. An out-of-range default repairs to itself.
- The Electron shell is not modelled: tray, windows, menus, IPC, login items, and reading and writing the settings file. The same goes for `src/installer.js` and `src/preload.js`.
