/**
 * Activation: `apply_config` merges the converted entries of a profile into
 * the live settings document, `target_path` chooses which live file that is,
 * and `create_config` writes a new, empty profile. The file system is a map
 * from path to what reading and parsing that path yields.
 */
module Activation {
  import opened Wrappers
  import opened Json
  import opened Paths
  import opened Normalize
  import Text

  /** What `read_to_string` followed by `serde_json::from_str` makes of a file that exists. */
  datatype Stored = Unreadable | Malformed | Parsed(doc: Json)

  datatype Error =
    | ReadError       // the file is missing or cannot be read
    | ParseError      // the file is not JSON
    | AlreadyExists   // "Config already exists"
    | Panicked        // `settings["customModels"] = ..` on a document that is neither an object nor null

  /** The two places the live settings may live. */
  datatype LiveFile = SettingsJson | ConfigJson

  /** `target_path()`: settings.json when it exists, config.json otherwise. */
  function TargetPath(settingsExists: bool): (r: LiveFile)
    ensures r == SettingsJson <==> settingsExists
  {
    if settingsExists then SettingsJson else ConfigJson
  }

  /** The directory holding the live files and the profiles directory. */
  function FactoryDir(home: string): string {
    JoinPath(home, ".factory")
  }

  function FileName(f: LiveFile): string {
    match f
    case SettingsJson => "settings.json"
    case ConfigJson => "config.json"
  }

  /** `settings_path()` and `config_path()`: the live files sit side by side in `~/.factory`. */
  function LivePath(home: string, f: LiveFile): (r: string)
    ensures r == JoinPath(FactoryDir(home), FileName(f))
  {
    JoinNested(home, ".factory", FileName(f));
    match f
    case SettingsJson =>
      assert ".factory/settings.json" == ".factory" + "/" + "settings.json";
      JoinPath(home, ".factory/settings.json")
    case ConfigJson =>
      assert ".factory/config.json" == ".factory" + "/" + "config.json";
      JoinPath(home, ".factory/config.json")
  }

  /** `configs_dir()`: the profiles directory is `configs` in `~/.factory`, beside the live files. */
  function ConfigsDir(home: string): (r: string)
    ensures r == JoinPath(FactoryDir(home), "configs")
  {
    JoinNested(home, ".factory", "configs");
    assert ".factory/configs" == ".factory" + "/" + "configs";
    JoinPath(home, ".factory/configs")
  }

  /** settings.json and config.json are two different files. */
  lemma LivePathsDistinct(home: string)
    ensures LivePath(home, SettingsJson) != LivePath(home, ConfigJson)
  {
    var prefix := if home == [] || home[|home| - 1] == '/' then home else home + "/";
    var dir := FactoryDir(home);
    assert dir == prefix + ".factory";
    assert |dir| > 0 && dir[|dir| - 1] == 'y';
    var s, c := LivePath(home, SettingsJson), LivePath(home, ConfigJson);
    assert s == dir + "/" + "settings.json";
    assert c == dir + "/" + "config.json";
    assert s[|dir| + 1] == 's' && c[|dir| + 1] == 'c';
  }

  /** A document holding the given list under `customModels` and nothing else. */
  function ModelsDocument(models: Json): (r: Json)
    ensures r.JObj? && r.fields.Keys == {"customModels"} && r.fields["customModels"] == models
  {
    JObj(map["customModels" := models])
  }

  /** The template of a new profile, `{"customModels": []}`. */
  const Template: Json := ModelsDocument(JArr([]))

  /**
   * `doc[key] = val` through serde_json's `IndexMut`: null first becomes an
   * empty object; an object gets the key set and keeps every other key;
   * any other value panics (None).
   */
  function SetKey(doc: Json, key: string, val: Json): (r: Option<Json>)
    ensures r.Some? <==> doc.JObj? || doc.JNull?
    ensures doc.JNull? ==> r == Some(JObj(map[key := val]))
    ensures doc.JObj? ==> r.Some? && r.value.JObj?
                          && r.value.fields.Keys == doc.fields.Keys + {key}
                          && r.value.fields[key] == val
                          && forall k :: k in doc.fields && k != key ==> r.value.fields[k] == doc.fields[k]
  {
    match doc
    case JNull => Some(JObj(map[key := val]))
    case JObj(fields) => Some(JObj(fields[key := val]))
    case _ => None
  }

  function Read(files: map<string, Stored>, path: string): Option<Stored> {
    if path in files then Some(files[path]) else None
  }

  /**
   * The new live document `apply_config` writes, given what the profile path
   * and the target path hold (None: the file does not exist).
   */
  function Activate(profile: Option<Stored>, live: Option<Stored>): (r: Result<Json, Error>)
    ensures r.Ok? <==> profile.Some? && profile.value.Parsed?
                       && (live.None? || (live.value.Parsed? && (live.value.doc.JObj? || live.value.doc.JNull?)))
    ensures r.Ok? ==> r.value.JObj? && "customModels" in r.value.fields
                      && r.value.fields["customModels"] == ConvertModels(profile.value.doc)
  {
    match profile
    case None => Err(ReadError)
    case Some(Unreadable) => Err(ReadError)
    case Some(Malformed) => Err(ParseError)
    case Some(Parsed(config)) =>
      var models := ConvertModels(config);
      match live
      case None => Ok(ModelsDocument(models))
      case Some(Unreadable) => Err(ReadError)
      case Some(Malformed) => Err(ParseError)
      case Some(Parsed(settings)) =>
        var updated := SetKey(settings, "customModels", models);
        if updated.Some? then Ok(updated.value) else Err(Panicked)
  }

  /**
   * Activating onto an existing live object replaces its `customModels` by the
   * converted profile and keeps every other key and value.
   */
  lemma ActivationKeepsOtherSettings(config: Json, settings: map<string, Json>)
    ensures var r := Activate(Some(Parsed(config)), Some(Parsed(JObj(settings))));
      && r.Ok? && r.value.JObj?
      && r.value.fields.Keys == settings.Keys + {"customModels"}
      && r.value.fields["customModels"] == ConvertModels(config)
      && forall k :: k in settings && k != "customModels" ==> r.value.fields[k] == settings[k]
  {
  }

  /** Without a live file (or with a null one) the result holds `customModels` and nothing else. */
  lemma ActivationCreatesLiveDocument(config: Json, live: Option<Stored>)
    requires live == None || live == Some(Parsed(JNull))
    ensures Activate(Some(Parsed(config)), live) == Ok(JObj(map["customModels" := ConvertModels(config)]))
  {
  }

  /** The error cases: unreadable or unparsable profile or live file, and a live file that is not an object. */
  lemma ActivationErrors(profile: Option<Stored>, live: Option<Stored>)
    ensures profile == None || profile == Some(Unreadable) ==> Activate(profile, live) == Err(ReadError)
    ensures profile == Some(Malformed) ==> Activate(profile, live) == Err(ParseError)
    ensures profile.Some? && profile.value.Parsed? && live == Some(Unreadable) ==> Activate(profile, live) == Err(ReadError)
    ensures profile.Some? && profile.value.Parsed? && live == Some(Malformed) ==> Activate(profile, live) == Err(ParseError)
    ensures profile.Some? && profile.value.Parsed? && live.Some? && live.value.Parsed?
            ==> (Activate(profile, live) == Err(Panicked) <==> !live.value.doc.JObj? && !live.value.doc.JNull?)
  {
  }

  /**
   * A profile with neither list key activates as an empty `customModels`,
   * every other live setting untouched.
   */
  lemma ActivatingEmptyProfile(config: Json, settings: map<string, Json>)
    requires Get(config, "customModels").None? && Get(config, "custom_models").None?
    ensures var r := Activate(Some(Parsed(config)), Some(Parsed(JObj(settings))));
      r == Ok(JObj(settings["customModels" := JArr([])]))
  {
    SourceListRules(config);
  }

  /** The home directory's `.factory` files, as the engine sees them. */
  class FactoryHome {
    const home: string
    var files: map<string, Stored>

    constructor (home: string, files: map<string, Stored>)
      ensures this.home == home && this.files == files
    {
      this.home := home;
      this.files := files;
    }

    /** The live path `target_path()` picks in the current state. */
    function Target(): (r: string)
      reads this
      ensures r == LivePath(home, SettingsJson) || r == LivePath(home, ConfigJson)
      ensures r == LivePath(home, SettingsJson) <==> LivePath(home, SettingsJson) in files
    {
      LivePathsDistinct(home);
      LivePath(home, TargetPath(LivePath(home, SettingsJson) in files))
    }

    /**
     * `apply_config(path)`: read and parse the profile, convert its entries,
     * then set `customModels` in the live document (or create one) and write
     * it back. On an error nothing is written.
     */
    method ApplyConfig(path: string) returns (r: Result<(), Error>)
      modifies this
      ensures var outcome := Activate(Read(old(files), path), Read(old(files), old(Target())));
        && (outcome.Ok? ==> r == Ok(()) && files == old(files)[old(Target()) := Parsed(outcome.value)])
        && (outcome.Err? ==> r == Err(outcome.error) && files == old(files))
      ensures r.Ok? ==> Target() == old(Target()) && Target() in files && files[Target()].Parsed?
    {
      LivePathsDistinct(home);
      var newConfig: Json;
      match Read(files, path) {
        case None => return Err(ReadError);
        case Some(Unreadable) => return Err(ReadError);
        case Some(Malformed) => return Err(ParseError);
        case Some(Parsed(doc)) => newConfig := doc;
      }
      var newModels := ConvertModels(newConfig);
      var target := Target();
      if target in files {
        var settings: Json;
        match files[target] {
          case Unreadable => return Err(ReadError);
          case Malformed => return Err(ParseError);
          case Parsed(doc) => settings := doc;
        }
        var updated := SetKey(settings, "customModels", newModels);
        if updated.None? {
          return Err(Panicked);
        }
        settings := updated.value;
        files := files[target := Parsed(settings)];
      } else {
        var newSettings := ModelsDocument(newModels);
        files := files[target := Parsed(newSettings)];
      }
      r := Ok(());
    }

    /**
     * `create_config(name)`: refuse an existing `<name>.json` in the profiles
     * directory, otherwise write the empty template there and return its path.
     */
    method CreateConfig(name: string) returns (r: Result<string, Error>)
      modifies this
      ensures var path := JoinPath(ConfigsDir(home), name + ".json");
        && (path in old(files) ==> r == Err(AlreadyExists) && files == old(files))
        && (path !in old(files) ==> r == Ok(path) && files == old(files)[path := Parsed(Template)])
    {
      var path := JoinPath(ConfigsDir(home), name + ".json");
      if path in files {
        return Err(AlreadyExists);
      }
      files := files[path := Parsed(Template)];
      r := Ok(path);
    }

    /**
     * `import_current()`, with the clock reading `now` (seconds since the
     * epoch) as a parameter: copy the live `customModels` into a new profile
     * `imported_<now>.json`.
     */
    method ImportCurrent(now: nat) returns (r: Result<string, Error>)
      modifies this
      ensures var path := JoinPath(ConfigsDir(home), "imported_" + Text.Decimal(now) + ".json");
        match Read(old(files), old(Target()))
        case None => r == Err(ReadError) && files == old(files)
        case Some(Unreadable) => r == Err(ReadError) && files == old(files)
        case Some(Malformed) => r == Err(ParseError) && files == old(files)
        case Some(Parsed(settings)) => r == Ok(path) && files == old(files)[path := Parsed(ImportedProfile(settings))]
    {
      var settings: Json;
      match Read(files, Target()) {
        case None => return Err(ReadError);
        case Some(Unreadable) => return Err(ReadError);
        case Some(Malformed) => return Err(ParseError);
        case Some(Parsed(doc)) => settings := doc;
      }
      var exportConfig := ImportedProfile(settings);
      var path := JoinPath(ConfigsDir(home), "imported_" + Text.Decimal(now) + ".json");
      files := files[path := Parsed(exportConfig)];
      r := Ok(path);
    }
  }

  /** The profile `import_current` writes: the live `customModels` as it is, or [] when it has none. */
  function ImportedProfile(settings: Json): (r: Json)
    ensures r.JObj? && r.fields.Keys == {"customModels"}
    ensures Get(settings, "customModels").Some? ==> r.fields["customModels"] == Get(settings, "customModels").value
    ensures Get(settings, "customModels").None? ==> r == Template
  {
    ModelsDocument(if Get(settings, "customModels").Some? then Get(settings, "customModels").value else JArr([]))
  }

  /**
   * Importing what an activation wrote gives a profile that converts to the
   * very list the live document holds: the written entries are canonical.
   */
  lemma ImportOfActivatedIsFaithful(config: Json, live: Option<Stored>, newLive: Json)
    requires Activate(Some(Parsed(config)), live) == Ok(newLive)
    ensures ConvertModels(ImportedProfile(newLive)) == newLive.fields["customModels"] == ConvertModels(config)
  {
    assert newLive.JObj? && newLive.fields["customModels"] == ConvertModels(config);
    CanonicalListIsFixed(ConvertModels(config).items);
  }

  /** A freshly created profile converts to an empty list. */
  lemma TemplateConvertsToEmpty()
    ensures ConvertModels(Template) == JArr([])
  {
    assert SourceModels(Template) == [];
  }

  /**
   * The live file is never a file of the profiles directory, so activation
   * (which writes only the live file) leaves every profile as it was.
   */
  lemma LiveFileIsNotAProfile(home: string, name: string, f: LiveFile)
    requires |name| > 0 && '/' !in name
    ensures JoinPath(ConfigsDir(home), name) != LivePath(home, f)
  {
    var prefix := if home == [] || home[|home| - 1] == '/' then home else home + "/";
    var factory := FactoryDir(home);
    assert factory == prefix + ".factory";
    assert |factory| > 0 && factory[|factory| - 1] == 'y';
    var dir := ConfigsDir(home);
    assert dir == factory + "/" + "configs";
    var profile := JoinPath(dir, name);
    assert profile == dir + "/" + name;
    var live := LivePath(home, f);
    assert live == factory + "/" + FileName(f);
    match f
    case SettingsJson =>
      assert profile[|factory| + 1] == 'c' && live[|factory| + 1] == 's';
    case ConfigJson =>
      assert profile[|factory| + 7] == 's' && live[|factory| + 7] == '.';
  }
}
