/**
 * The settings of the desktop shell (src/main.js): `normalizeState`, which
 * repairs a settings object field by field, the merge step of `saveState`,
 * and the menu-label lookup `tr`.
 *
 * A settings object is modelled by its own properties. `DEFAULT_PORT` comes
 * from a module that is not part of this model, so it is a parameter.
 */
module Settings {
  import opened Results
  import opened Text
  import opened JsValues

  /** The own properties of a settings object. */
  type State = map<string, Value>

  const DefaultRepository := "Raph563/Grocy"

  /** The five fields `normalizeState` rewrites. */
  const FieldNames: set<string> := {"port", "repository", "localRootPath", "language", "launchAtStartup"}

  /** `DEFAULT_STATE`. */
  function DefaultState(defaultPort: Number): (d: State)
    ensures d.Keys == FieldNames
  {
    map["port" := Num(defaultPort), "repository" := Str(DefaultRepository), "localRootPath" := Str(""),
        "language" := Str("fr"), "launchAtStartup" := Bool(false)]
  }

  /** The five default values. */
  lemma DefaultFields(defaultPort: Number)
    ensures var d := DefaultState(defaultPort);
      && d["port"] == Num(defaultPort) && d["repository"] == Str(DefaultRepository)
      && d["localRootPath"] == Str("") && d["language"] == Str("fr") && d["launchAtStartup"] == Bool(false)
  {
  }

  /** A port the relay accepts: a finite number from 1024 to 65535 (not necessarily whole). */
  predicate InRange(n: Number) {
    n.Finite? && 1024.0 <= n.r <= 65535.0
  }

  /**
   * `Number(port || DEFAULT_PORT)`, replaced by `DEFAULT_PORT` unless finite
   * and in range. The conversion throws for an object that hides `toString`.
   */
  function PortField(conv: Conversions, defaultPort: Number, v: Value): (p: Result<Number>)
    ensures p.Err? <==> Truthy(v) && ToNumber(conv, v).Err?
    ensures p.Err? ==> p.message == ConversionError
    ensures p.Ok? ==> p.value == defaultPort || InRange(p.value)
    ensures Truthy(v) && ToNumber(conv, v).Ok? && InRange(ToNumber(conv, v).value) ==> p == ToNumber(conv, v)
    ensures !Truthy(v) || (ToNumber(conv, v).Ok? && !InRange(ToNumber(conv, v).value)) ==> p == Ok(defaultPort)
  {
    var n := ToNumber(conv, OrElse(v, Num(defaultPort)));
    if n.Err? then Err(n.message)
    else if !n.value.Finite? || n.value.r < 1024.0 || n.value.r > 65535.0 then Ok(defaultPort)
    else Ok(n.value)
  }

  /** The default port repairs to itself, in range or not. */
  lemma DefaultPortKept(conv: Conversions, defaultPort: Number)
    ensures PortField(conv, defaultPort, Num(defaultPort)) == Ok(defaultPort)
  {
  }

  /** `String(DEFAULT_STATE.repository).trim()` is the default itself. */
  lemma DefaultRepositoryIsTrimmed(s: string)
    requires s == DefaultRepository
    ensures Trim(s) == s
  {
    TrimUnchanged(s);
  }

  /**
   * `String(repository || DEFAULT_STATE.repository).trim() || DEFAULT_STATE.repository`.
   * A falsy value yields the default directly: the default is already
   * trimmed (`DefaultRepositoryIsTrimmed`).
   */
  function RepositoryField(conv: Conversions, v: Value): (r: Result<string>)
    ensures r.Err? <==> Truthy(v) && ToText(conv, v).Err?
    ensures r.Err? ==> r.message == ConversionError
    ensures r.Ok? ==> r.value != ""
    ensures Truthy(v) && ToText(conv, v).Ok? && Trim(ToText(conv, v).value) != "" ==>
      r == Ok(Trim(ToText(conv, v).value))
    ensures !Truthy(v) || (ToText(conv, v).Ok? && Trim(ToText(conv, v).value) == "") ==>
      r == Ok(DefaultRepository)
  {
    if !Truthy(v) then Ok(DefaultRepository)
    else
      var text := ToText(conv, v);
      if text.Err? then Err(text.message)
      else
        var t := Trim(text.value);
        if t == "" then Ok(DefaultRepository) else Ok(t)
  }

  /** `String(localRootPath || '').trim()`. */
  function LocalRootField(conv: Conversions, v: Value): (r: Result<string>)
    ensures r.Err? <==> Truthy(v) && ToText(conv, v).Err?
    ensures r.Err? ==> r.message == ConversionError
    ensures !Truthy(v) ==> r == Ok("")
    ensures Truthy(v) && ToText(conv, v).Ok? ==> r == Ok(Trim(ToText(conv, v).value))
    ensures v.Str? ==> r == Ok(Trim(v.s))
    ensures r.Ok? ==> r.value == Trim(r.value)
  {
    var text := TextOrEmpty(conv, v);
    if text.Err? then Err(text.message)
    else
      TrimIdempotent(text.value);
      Ok(Trim(text.value))
  }

  /** `language === 'en' ? 'en' : 'fr'`. */
  function LanguageField(v: Value): (r: string)
    ensures r == "en" <==> v == Str("en")
    ensures r == "en" || r == "fr"
  {
    if v == Str("en") then "en" else "fr"
  }

  /** `{ ...DEFAULT_STATE, ...input }`: the input's properties over the defaults. */
  function Merged(defaultPort: Number, input: State): (m: State)
    ensures m.Keys == FieldNames + input.Keys
  {
    DefaultState(defaultPort) + input
  }

  /** The repair `normalizeState` applies to the property `key` of the merged object; only the three conversions can throw. */
  function NormalizeField(conv: Conversions, defaultPort: Number, key: string, v: Value): (r: Result<Value>)
    ensures key !in FieldNames ==> r == Ok(v)
    ensures key == "port" ==> (r.Err? <==> PortField(conv, defaultPort, v).Err?)
    ensures key == "port" && r.Ok? ==> r.value == Num(PortField(conv, defaultPort, v).value)
    ensures key == "repository" ==> (r.Err? <==> RepositoryField(conv, v).Err?)
    ensures key == "repository" && r.Ok? ==> r.value == Str(RepositoryField(conv, v).value)
    ensures key == "localRootPath" ==> (r.Err? <==> LocalRootField(conv, v).Err?)
    ensures key == "localRootPath" && r.Ok? ==> r.value == Str(LocalRootField(conv, v).value)
    ensures key == "language" ==> r == Ok(Str(LanguageField(v)))
    ensures key == "launchAtStartup" ==> r == Ok(Bool(IsTrue(v)))
    ensures key != "port" && key != "repository" && key != "localRootPath" ==> r.Ok?
    ensures r.Err? ==> r.message == ConversionError
  {
    if key == "port" then
      var p := PortField(conv, defaultPort, v);
      if p.Err? then Err(p.message) else Ok(Num(p.value))
    else if key == "repository" then
      var t := RepositoryField(conv, v);
      if t.Err? then Err(t.message) else Ok(Str(t.value))
    else if key == "localRootPath" then
      var t := LocalRootField(conv, v);
      if t.Err? then Err(t.message) else Ok(Str(t.value))
    else if key == "language" then Ok(Str(LanguageField(v)))
    else if key == "launchAtStartup" then Ok(Bool(IsTrue(v)))
    else Ok(v)
  }

  /** One of the three conversions of `normalizeState` throws on the merged object. */
  predicate Throws(conv: Conversions, defaultPort: Number, next: State)
    requires FieldNames <= next.Keys
  {
    || NormalizeField(conv, defaultPort, "port", next["port"]).Err?
    || NormalizeField(conv, defaultPort, "repository", next["repository"]).Err?
    || NormalizeField(conv, defaultPort, "localRootPath", next["localRootPath"]).Err?
  }

  /**
   * `normalizeState(input)`: the defaults overlaid with the input, then the
   * five fields replaced by their repaired values; every other property is
   * kept. The source assigns the fields one after another and stops at the
   * first conversion that throws; the five repairs are independent.
   */
  function NormalizeState(conv: Conversions, defaultPort: Number, input: State): (r: Result<State>)
    ensures r.Err? <==> Throws(conv, defaultPort, Merged(defaultPort, input))
    ensures r.Err? ==> r.message == ConversionError
    ensures r.Ok? ==> r.value.Keys == FieldNames + input.Keys
    ensures r.Ok? ==> forall k :: k in r.value ==>
      Ok(r.value[k]) == NormalizeField(conv, defaultPort, k, Merged(defaultPort, input)[k])
  {
    var next := Merged(defaultPort, input);
    var port := NormalizeField(conv, defaultPort, "port", next["port"]);
    var repository := NormalizeField(conv, defaultPort, "repository", next["repository"]);
    var localRootPath := NormalizeField(conv, defaultPort, "localRootPath", next["localRootPath"]);
    if port.Err? then Err(port.message)
    else if repository.Err? then Err(repository.message)
    else if localRootPath.Err? then Err(localRootPath.message)
    else
      ConvertsAll(conv, defaultPort, next);
      Ok(Repaired(conv, defaultPort, next))
  }

  /** Every property of the merged object replaced by its repaired value. */
  function Repaired(conv: Conversions, defaultPort: Number, next: State): (r: State)
    ensures r.Keys == next.Keys
    ensures forall k :: k in r ==> r[k] == RepairedValue(conv, defaultPort, k, next[k])
  {
    map k | k in next :: RepairedValue(conv, defaultPort, k, next[k])
  }

  /** The repaired value of a property whose repair does not throw. */
  function RepairedValue(conv: Conversions, defaultPort: Number, key: string, v: Value): (r: Value)
    ensures NormalizeField(conv, defaultPort, key, v).Ok? ==> Ok(r) == NormalizeField(conv, defaultPort, key, v)
  {
    var repaired := NormalizeField(conv, defaultPort, key, v);
    if repaired.Ok? then repaired.value else v
  }

  /** When none of the three conversions throws, every property repairs. */
  lemma ConvertsAll(conv: Conversions, defaultPort: Number, next: State)
    requires FieldNames <= next.Keys && !Throws(conv, defaultPort, next)
    ensures forall k :: k in next ==> NormalizeField(conv, defaultPort, k, next[k]).Ok?
  {
    forall k | k in next
      ensures NormalizeField(conv, defaultPort, k, next[k]).Ok?
    {
      if k == "port" {
        assert next[k] == next["port"];
      } else if k == "repository" {
        assert next[k] == next["repository"];
      } else if k == "localRootPath" {
        assert next[k] == next["localRootPath"];
      }
    }
  }

  /** The value `normalizeState` starts from for `key`: the input's, else the default. */
  function Given(defaultPort: Number, input: State, key: string): Value
    requires key in FieldNames
  {
    if key in input then input[key] else DefaultState(defaultPort)[key]
  }

  /** The merged object holds, for each of the five fields, the input's value or the default. */
  lemma MergedField(defaultPort: Number, input: State, key: string)
    requires key in FieldNames
    ensures key in Merged(defaultPort, input) && Merged(defaultPort, input)[key] == Given(defaultPort, input, key)
  {
  }

  /**
   * `normalizeState` throws exactly when the input gives the port, the
   * repository or the root path a truthy value whose conversion throws: the
   * defaults always convert.
   */
  lemma StateThrows(conv: Conversions, defaultPort: Number, input: State)
    ensures NormalizeState(conv, defaultPort, input).Err? <==>
      || ("port" in input && Truthy(input["port"]) && ToText(conv, input["port"]).Err?)
      || ("repository" in input && Truthy(input["repository"]) && ToText(conv, input["repository"]).Err?)
      || ("localRootPath" in input && Truthy(input["localRootPath"]) && ToText(conv, input["localRootPath"]).Err?)
  {
    var next := Merged(defaultPort, input);
    MergedField(defaultPort, input, "port");
    MergedField(defaultPort, input, "repository");
    MergedField(defaultPort, input, "localRootPath");
    assert NormalizeField(conv, defaultPort, "port", next["port"]).Err? <==>
      "port" in input && Truthy(input["port"]) && ToText(conv, input["port"]).Err?
    by {
      if "port" !in input {
        DefaultFields(defaultPort);
        assert next["port"] == Num(defaultPort);
      }
    }
    assert NormalizeField(conv, defaultPort, "repository", next["repository"]).Err? <==>
      "repository" in input && Truthy(input["repository"]) && ToText(conv, input["repository"]).Err?
    by {
      if "repository" !in input {
        DefaultFields(defaultPort);
        assert next["repository"].Str?;
      }
    }
    assert NormalizeField(conv, defaultPort, "localRootPath", next["localRootPath"]).Err? <==>
      "localRootPath" in input && Truthy(input["localRootPath"]) && ToText(conv, input["localRootPath"]).Err?
    by {
      if "localRootPath" !in input {
        DefaultFields(defaultPort);
        assert next["localRootPath"].Str?;
      }
    }
  }

  /** The port is the given one when it is a truthy number in range, else `DEFAULT_PORT` (missing, 0, NaN, out of range). */
  lemma NormalizedPort(conv: Conversions, defaultPort: Number, input: State)
    ensures var r := NormalizeState(conv, defaultPort, input);
      var port := Given(defaultPort, input, "port");
      r.Ok? ==>
        r.value["port"] ==
          Num(if "port" in input && Truthy(port) && ToNumber(conv, port).Ok? && InRange(ToNumber(conv, port).value)
              then ToNumber(conv, port).value else defaultPort)
  {
    MergedField(defaultPort, input, "port");
    DefaultFields(defaultPort);
    var r := NormalizeState(conv, defaultPort, input);
    var port := Given(defaultPort, input, "port");
    if r.Ok? {
      var p := PortField(conv, defaultPort, port);
      assert Ok(r.value["port"]) == NormalizeField(conv, defaultPort, "port", port);
      assert p.Ok? && r.value["port"] == Num(p.value);
      if "port" !in input {
        DefaultPortKept(conv, defaultPort);
      }
    }
  }

  /** The repository is the trimmed given text unless missing or blank, then `Raph563/Grocy`. */
  lemma NormalizedRepository(conv: Conversions, defaultPort: Number, input: State)
    ensures var r := NormalizeState(conv, defaultPort, input);
      var repository := Given(defaultPort, input, "repository");
      r.Ok? ==>
        r.value["repository"] ==
          Str(if "repository" in input && Truthy(repository) && ToText(conv, repository).Ok?
                 && Trim(ToText(conv, repository).value) != ""
              then Trim(ToText(conv, repository).value) else DefaultRepository)
  {
    MergedField(defaultPort, input, "repository");
    DefaultFields(defaultPort);
    var r := NormalizeState(conv, defaultPort, input);
    var repository := Given(defaultPort, input, "repository");
    if r.Ok? {
      var field := RepositoryField(conv, repository);
      assert Ok(r.value["repository"]) == NormalizeField(conv, defaultPort, "repository", repository);
      assert field.Ok? && r.value["repository"] == Str(field.value);
      var text := ToText(conv, repository);
      if "repository" in input && Truthy(repository) && text.Ok? && Trim(text.value) != "" {
        assert field.value == Trim(text.value);
      } else if "repository" in input {
        assert field.value == DefaultRepository;
      } else {
        assert repository == Str(DefaultRepository);
        DefaultRepositoryIsTrimmed(DefaultRepository);
        assert field.value == DefaultRepository;
      }
    }
  }

  /** The root path is the trimmed text of the given value, and empty when missing. */
  lemma NormalizedLocalRoot(conv: Conversions, defaultPort: Number, input: State)
    ensures var r := NormalizeState(conv, defaultPort, input);
      r.Ok? ==>
        && LocalRootField(conv, Given(defaultPort, input, "localRootPath")).Ok?
        && r.value["localRootPath"] ==
             Str(if "localRootPath" in input then LocalRootField(conv, input["localRootPath"]).value else "")
  {
    MergedField(defaultPort, input, "localRootPath");
    DefaultFields(defaultPort);
    var r := NormalizeState(conv, defaultPort, input);
    if r.Ok? {
      assert Ok(r.value["localRootPath"]) ==
        NormalizeField(conv, defaultPort, "localRootPath", Given(defaultPort, input, "localRootPath"));
    }
  }

  /** The language is `en` exactly when the given value is the string `'en'`, and `fr` otherwise. */
  lemma NormalizedLanguage(conv: Conversions, defaultPort: Number, input: State)
    ensures var r := NormalizeState(conv, defaultPort, input);
      r.Ok? ==>
        r.value["language"] == Str(if "language" in input && input["language"] == Str("en") then "en" else "fr")
  {
    MergedField(defaultPort, input, "language");
    var r := NormalizeState(conv, defaultPort, input);
    if r.Ok? {
      var given := Given(defaultPort, input, "language");
      assert "language" in r.value;
      assert Ok(r.value["language"]) == NormalizeField(conv, defaultPort, "language", given);
      assert r.value["language"] == Str(LanguageField(given));
      if "language" !in input {
        DefaultFields(defaultPort);
        assert given == Str("fr");
      } else {
        assert given == input["language"];
      }
    }
  }

  /** Start at login only for exactly `true`. */
  lemma NormalizedLaunchAtStartup(conv: Conversions, defaultPort: Number, input: State)
    ensures var r := NormalizeState(conv, defaultPort, input);
      r.Ok? ==>
        r.value["launchAtStartup"] == Bool("launchAtStartup" in input && input["launchAtStartup"] == Bool(true))
  {
    MergedField(defaultPort, input, "launchAtStartup");
    DefaultFields(defaultPort);
    var r := NormalizeState(conv, defaultPort, input);
    if r.Ok? {
      var given := Given(defaultPort, input, "launchAtStartup");
      assert "launchAtStartup" in r.value;
      assert Ok(r.value["launchAtStartup"]) == NormalizeField(conv, defaultPort, "launchAtStartup", given);
      assert r.value["launchAtStartup"] == Bool(IsTrue(given));
    }
  }

  /** Properties other than the five fields pass through unchanged. */
  lemma OtherPropertiesKept(conv: Conversions, defaultPort: Number, input: State, key: string)
    requires key in input && key !in FieldNames
    ensures var r := NormalizeState(conv, defaultPort, input);
      r.Ok? ==> key in r.value && r.value[key] == input[key]
  {
    assert Merged(defaultPort, input)[key] == input[key];
  }

  /** Repairing a repaired port, repository or root path changes nothing. */
  lemma PortIdempotent(conv: Conversions, defaultPort: Number, v: Value)
    ensures var p := PortField(conv, defaultPort, v);
      p.Ok? ==> PortField(conv, defaultPort, Num(p.value)) == p
  {
  }

  lemma RepositoryIdempotent(conv: Conversions, v: Value)
    ensures var r := RepositoryField(conv, v);
      r.Ok? ==> RepositoryField(conv, Str(r.value)) == r
  {
    var r := RepositoryField(conv, v);
    if r.Ok? {
      var t := r.value;
      assert Truthy(Str(t)) && ToText(conv, Str(t)) == Ok(t);
      if t == DefaultRepository {
        DefaultRepositoryIsTrimmed(t);
      } else {
        assert t == Trim(ToText(conv, v).value);
        TrimIdempotent(ToText(conv, v).value);
      }
      assert Trim(t) == t;
    }
  }

  lemma FieldIdempotent(conv: Conversions, defaultPort: Number, key: string, v: Value)
    ensures var once := NormalizeField(conv, defaultPort, key, v);
      once.Ok? ==> NormalizeField(conv, defaultPort, key, once.value) == once
  {
    var once := NormalizeField(conv, defaultPort, key, v);
    if once.Ok? {
      if key == "port" {
        PortIdempotent(conv, defaultPort, v);
        assert once == Ok(Num(PortField(conv, defaultPort, v).value));
      } else if key == "repository" {
        RepositoryIdempotent(conv, v);
        assert once == Ok(Str(RepositoryField(conv, v).value));
      } else if key == "localRootPath" {
        var t := LocalRootField(conv, v).value;
        assert once == Ok(Str(t));
        assert LocalRootField(conv, Str(t)) == Ok(Trim(t));
      }
    }
  }

  /** Two states with the same properties holding the same values are equal. */
  lemma SameState(a: State, b: State)
    requires a.Keys == b.Keys
    requires forall k :: k in a ==> a[k] == b[k]
    ensures a == b
  {
  }

  /** `normalizeState` is idempotent, whatever `DEFAULT_PORT` is: a normalised state converts without throwing and is kept. */
  lemma NormalizeIdempotent(conv: Conversions, defaultPort: Number, input: State)
    ensures var once := NormalizeState(conv, defaultPort, input);
      once.Ok? ==> NormalizeState(conv, defaultPort, once.value) == once
  {
    var once := NormalizeState(conv, defaultPort, input);
    if once.Ok? {
      var state := once.value;
      forall k | k in state
        ensures NormalizeField(conv, defaultPort, k, Merged(defaultPort, state)[k]) == Ok(state[k])
      {
        assert Merged(defaultPort, state)[k] == state[k];
        FieldIdempotent(conv, defaultPort, k, Merged(defaultPort, input)[k]);
      }
      assert !Throws(conv, defaultPort, Merged(defaultPort, state));
      var twice := NormalizeState(conv, defaultPort, state);
      assert twice.Ok?;
      SameState(twice.value, state);
    }
  }

  /** The merge step of `saveState(patch)`: the current state overlaid with the patch, normalised. */
  function SaveMerge(conv: Conversions, defaultPort: Number, state: State, patch: State): (r: Result<State>)
    ensures r.Err? <==> Throws(conv, defaultPort, Merged(defaultPort, state + patch))
    ensures r.Ok? ==> r.value.Keys == FieldNames + state.Keys + patch.Keys
  {
    NormalizeState(conv, defaultPort, state + patch)
  }

  /**
   * Saving a patch over a normalised state: each patched property gets the
   * repaired patch value, every other property keeps its value, and the save
   * throws only because of a patched field.
   */
  lemma SaveOverlay(conv: Conversions, defaultPort: Number, state: State, patch: State)
    requires NormalizeState(conv, defaultPort, state) == Ok(state)
    ensures var r := SaveMerge(conv, defaultPort, state, patch);
      r.Ok? ==>
        && (forall k :: k in patch ==> Ok(r.value[k]) == NormalizeField(conv, defaultPort, k, patch[k]))
        && (forall k :: k in state && k !in patch ==> r.value[k] == state[k])
    ensures SaveMerge(conv, defaultPort, state, patch).Err? ==>
      exists k :: k in patch && NormalizeField(conv, defaultPort, k, patch[k]).Err?
  {
    var r := SaveMerge(conv, defaultPort, state, patch);
    assert FieldNames <= state.Keys;
    forall k | k in state + patch
      ensures Merged(defaultPort, state + patch)[k] == (state + patch)[k]
    {
    }
    forall k | k in state && k !in patch
      ensures NormalizeField(conv, defaultPort, k, Merged(defaultPort, state + patch)[k]) == Ok(state[k])
    {
      assert Merged(defaultPort, state + patch)[k] == Merged(defaultPort, state)[k];
    }
    if r.Err? {
      var next := Merged(defaultPort, state + patch);
      if NormalizeField(conv, defaultPort, "port", next["port"]).Err? {
        assert "port" in patch;
      } else if NormalizeField(conv, defaultPort, "repository", next["repository"]).Err? {
        assert "repository" in patch;
      } else {
        assert "localRootPath" in patch;
      }
    }
  }

  // ---------------------------------------------------------------------
  // tr
  // ---------------------------------------------------------------------

  const French: map<string, string> := map[
    "open" := "Ouvrir",
    "launchAtStartup" := "Lancer au démarrage",
    "language" := "Langue",
    "restartRelay" := "Redémarrer le relay",
    "restartApp" := "Redémarrer l'application",
    "quit" := "Quitter",
    "relayOn" := "Relay actif",
    "relayOff" := "Relay arrêté"]

  const English: map<string, string> := map[
    "open" := "Open",
    "launchAtStartup" := "Launch at startup",
    "language" := "Language",
    "restartRelay" := "Restart relay",
    "restartApp" := "Restart application",
    "quit" := "Quit",
    "relayOn" := "Relay running",
    "relayOff" := "Relay stopped"]

  /** `state.language === 'en'`. */
  predicate IsEnglish(state: State) {
    "language" in state && state["language"] == Str("en")
  }

  /** `tr(key)`: the entry of the current language when it is non-empty, else the French entry, else the key. */
  function Tr(state: State, key: string): (r: string)
    ensures IsEnglish(state) && key in English && English[key] != "" ==> r == English[key]
    ensures !IsEnglish(state) && key in French && French[key] != "" ==> r == French[key]
    ensures key !in English && key !in French ==> r == key
  {
    var table := if IsEnglish(state) then English else French;
    if key in table && table[key] != "" then table[key]
    else if key in French && French[key] != "" then French[key]
    else key
  }

  /** Both tables label the same entries, so the French fallback matters only for unknown keys. */
  lemma TablesCoverSameKeys()
    ensures English.Keys == French.Keys
  {
  }
}
