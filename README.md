# droid-switch profile engine, modelled in Dafny

droid-switch keeps several named *model profiles* (JSON files in
`~/.factory/configs/`) and activates one of them into the live settings file
(`~/.factory/settings.json`, or `~/.factory/config.json` when the former does
not exist). This project models the engine behind that, from
`src-tauri/src/lib.rs`:

- **the normaliser** (`is_factory_format`, `convert_model`, `convert_models`):
  a profile entry in the legacy snake_case shape, the camelCase shape or a mix
  becomes the nine-key canonical object; an entry that already has `id`,
  `index` and `displayName` passes through unchanged;
- **activation** (`apply_config`, `target_path`, plus `create_config` and
  `import_current`): the converted list replaces `customModels` in the live
  document, every other setting kept;
- **reverse lookup** (`get_current_config`): the first `.json` profile, in
  directory order, whose converted list equals the live `customModels`;
- **listing** (`list_configs`): the `.json` files, sorted by file stem.

Files: `wrappers.dfy` (Option, Result), `json.dfy` (the `serde_json::Value`
variants and accessors), `text.dfy` (space replacement, decimal notation,
string order), `paths.dfy` (`Path::extension`, `file_stem`, `join`),
`normalize.dfy`, `activation.dfy`, `lookup.dfy`, `listing.dfy`.

The file system is a value: `FactoryHome.files` maps a path to what reading
and parsing it yields (`Unreadable`, `Malformed` or `Parsed(json)`); a path
absent from the map is a missing file. Directory listings are given as
sequences in enumeration order, the live document of a lookup as its parsed
value (None when it is missing, unreadable or not JSON).

## Model

| member | source | states |
|---|---|---|
| `Normalize.IsFactoryFormat` | src-tauri/src/lib.rs:16-20 | an entry is canonical exactly when it is an object holding the keys `id`, `index` and `displayName`, whatever their values (null included) |
| `Normalize.ConvertModel` | src-tauri/src/lib.rs:16-84 | an entry with `id`, `index` and `displayName` comes back unchanged; any other entry becomes an object with exactly the nine canonical keys, each of its type, `index` equal to the position and `id` equal to `custom:` + display name with spaces as hyphens + `-` + decimal position; the result always passes `is_factory_format` |
| `Normalize.PreferredStringRules` | src-tauri/src/lib.rs:29-50 | a present first key decides (its string, or the default when it is not a string); the second key is read only when the first is absent |
| `Normalize.TextFieldRules` | src-tauri/src/lib.rs:29-50 | `displayName`, `baseUrl`, `apiKey` come from `model_display_name`/`base_url`/`api_key`, else `displayName`/`baseUrl`/`apiKey`, else "Unknown", "", ""; a wrong-typed snake_case value gives the default without consulting the camelCase key |
| `Normalize.SingleKeyRules` | src-tauri/src/lib.rs:35-55 | `model` and `provider` are the string under the same key, else "" and "anthropic" |
| `Normalize.MaxTokensRules` | src-tauri/src/lib.rs:57-60 | `maxOutputTokens` is `max_tokens` when present (8192 if it is not a 64-bit integer), else `maxOutputTokens` if a 64-bit integer, else 8192 |
| `Normalize.NoImageSupportRules` | src-tauri/src/lib.rs:62-67 | `noImageSupport` is the negation of a boolean `supports_images`; otherwise a boolean `noImageSupport` as it is; otherwise false |
| `Normalize.EmptyEntryAtTwo` | src-tauri/src/lib.rs:29-83 | `{}` or a non-object at position 2 becomes the all-defaults entry with id `custom:Unknown-2` |
| `Text.ReplaceSpaces` | src-tauri/src/lib.rs:70 | same length; each space becomes a hyphen, every other character is kept |
| `Text.Decimal` | src-tauri/src/lib.rs:71 | the index is written with at least one digit, digits only, no leading zero |
| `Text.DecimalRoundTrip` | src-tauri/src/lib.rs:71 | reading the decimal notation back gives the index |
| `Normalize.IdsAtDistinctPositionsDiffer` | src-tauri/src/lib.rs:69-71 | ids made at different positions differ whatever the display names |
| `Normalize.ConvertedIdsDistinct` | src-tauri/src/lib.rs:69-97 | two entries of one profile that are not passed through never share an id |
| `Normalize.ConvertModels` | src-tauri/src/lib.rs:87-100 | the result is an array as long as the source list whose element i is the conversion of source element i at position i, and every element is canonical |
| `Normalize.SourceListRules` | src-tauri/src/lib.rs:88-92 | `customModels` is used whenever present (a non-array gives []), `custom_models` only when it is absent; neither key, or a non-object profile, gives [] |
| `Normalize.CanonicalListIsFixed` | src-tauri/src/lib.rs:16-27 | a list of canonical entries converts to itself |
| `Normalize.ConvertModelsIdempotent` | src-tauri/src/lib.rs:87-100 | converting `{customModels: convert_models(D)}` again gives `convert_models(D)` |
| `Activation.TargetPath` | src-tauri/src/lib.rs:110-117 | settings.json is chosen exactly when it exists, config.json otherwise |
| `Activation.LivePath` | src-tauri/src/lib.rs:102-108 | settings.json and config.json are the files of those names in `~/.factory` |
| `Activation.ConfigsDir` | src-tauri/src/lib.rs:11-13 | the profiles directory is `configs` in `~/.factory`, beside the live files |
| `Activation.LivePathsDistinct` | src-tauri/src/lib.rs:102-108 | settings.json and config.json are different paths for every home directory |
| `Activation.FactoryHome.Target` | src-tauri/src/lib.rs:110-117 | the live path in a given state is one of the two live files, and settings.json exactly when that file exists |
| `Activation.SetKey` | src-tauri/src/lib.rs:181 | `doc["customModels"] = v`: null becomes `{customModels: v}`; an object gets the key set and keeps every other key and value; any other value panics |
| `Activation.Activate` | src-tauri/src/lib.rs:170-190 | activation succeeds exactly when the profile reads and parses and the live file is absent or parses to an object or null; the new live document is then an object whose `customModels` is the converted profile |
| `Activation.ActivationKeepsOtherSettings` | src-tauri/src/lib.rs:175-183 | activating onto a live object sets `customModels` to the converted profile and keeps every other key and value |
| `Activation.ActivationCreatesLiveDocument` | src-tauri/src/lib.rs:184-189 | without a live file the new document is exactly `{customModels: convert_models(profile)}` |
| `Activation.ActivationErrors` | src-tauri/src/lib.rs:170-181 | a missing or unreadable profile, or an unreadable live file, fails with a read error (a missing live file is created instead); unparsable JSON fails with a parse error; a live document that is neither object nor null fails with the panic |
| `Activation.ActivatingEmptyProfile` | src-tauri/src/lib.rs:175-181 | a profile with neither list key sets the live `customModels` to [] and changes nothing else |
| `Activation.FactoryHome.ApplyConfig` | src-tauri/src/lib.rs:169-192 | on success exactly the target file changes, to the activated document, and the target stays the same file, now holding a parsed document; on any error no file changes |
| `Activation.LiveFileIsNotAProfile` | src-tauri/src/lib.rs:102-117 | no entry of the profiles directory (a name without '/') has the path of a live file, so activation never rewrites a profile |
| `Activation.FactoryHome.CreateConfig` | src-tauri/src/lib.rs:150-161 | an existing `<name>.json` is refused and nothing changes; otherwise the template `{customModels: []}` is written and its path returned |
| `Activation.TemplateConvertsToEmpty` | src-tauri/src/lib.rs:155-157 | the template converts to the empty list |
| `Activation.FactoryHome.ImportCurrent` | src-tauri/src/lib.rs:223-236 | read or parse errors change nothing; otherwise `imported_<secs>.json` is written holding the live `customModels` (or []) |
| `Activation.ImportedProfile` | src-tauri/src/lib.rs:227-229 | the imported profile holds the live `customModels` as it is, or [] when the live document has none, under `customModels` and nothing else |
| `Activation.ImportOfActivatedIsFaithful` | src-tauri/src/lib.rs:227-229 | importing what an activation wrote gives a profile that converts to exactly the live list |
| `Lookup.Candidates` | src-tauri/src/lib.rs:200-206 | the lookup's listing is built from the same file map the activation writes: each directory entry name with its parsed document, present exactly when the file reads and parses |
| `Lookup.WritingLiveFileKeepsCandidates` | src-tauri/src/lib.rs:169-206 | writing either live file leaves the lookup's view of the profiles directory unchanged, for entry names without '/' |
| `Lookup.FirstTrue` | src-tauri/src/lib.rs:202-217 | the scan from a start position stops at the first true flag, with none before it; None exactly when no flag from there on is true |
| `Lookup.FirstMatch` | src-tauri/src/lib.rs:202-217 | the position found matches and no earlier one does; None exactly when no entry matches |
| `Lookup.GetCurrentConfig` | src-tauri/src/lib.rs:195-220 | the loop returns what the first-match specification `Identify` gives |
| `Lookup.IdentifyFirstMatch` | src-tauri/src/lib.rs:195-220 | no live `customModels` array gives None; otherwise the first `.json`, readable, parsable entry whose conversion equals the live list, and None exactly when there is none |
| `Lookup.ActivateThenIdentify` | src-tauri/src/lib.rs:169-220 | after activating a profile, lookup over a listing that contains it returns it or an earlier entry converting to the same list; with no such earlier entry, the profile itself |
| `Paths.JsonFileIff` | src-tauri/src/lib.rs:127-129 | a name has extension `json` exactly when it ends in `.json` with something before it, and its stem is that front part |
| `Listing.SameStemSameEntry` | src-tauri/src/lib.rs:127-131 | two `.json` names with the same stem give the same record |
| `Text.LexLeTotal` | src-tauri/src/lib.rs:135 | any two names are ordered one way or the other |
| `Text.LexLeTransitive` | src-tauri/src/lib.rs:135 | the name order is transitive |
| `Text.LexLeAntisymmetric` | src-tauri/src/lib.rs:135 | names ordered both ways are equal |
| `Listing.JsonConfigs` | src-tauri/src/lib.rs:124-134 | no more records than listed names, and every kept record is the (stem, path) record of a `.json` name of the listing |
| `Listing.JsonConfigsCount` | src-tauri/src/lib.rs:124-134 | exactly one record per `.json` name: as many records as listing positions holding a `.json` name |
| `Listing.JsonConfigsComplete` | src-tauri/src/lib.rs:124-134 | every `.json` name of the listing gives a kept record |
| `Listing.SortByName` | src-tauri/src/lib.rs:135 | the array ends sorted by name and is a permutation of what it held |
| `Listing.ListConfigs` | src-tauri/src/lib.rs:120-137 | the result is sorted by name and is a permutation of the `.json` records of the listing |

## Left out

- The React window (`src/App.tsx`) and the tray, menu and window lifecycle in `run()`: user-interface glue with no engine logic.
- `read_config`, `save_config`, `delete_config`: single file-system calls with no logic of their own.
- JSON text: parsing and pretty-printing are serde_json's; a file is modelled by what parsing it yields, and a write stores the value written.
- Write failures (`fs::write` errors) and `create_dir_all`: writes are modelled as always succeeding.
- Floating-point numbers are a `JFloat(real)` placeholder; only "not a 64-bit integer" matters to the engine.
- The home directory, the clock reading of `import_current` and the directory enumeration order are parameters.
- Entries `read_dir` fails to produce and non-UTF-8 file names are not modelled; the listing is the sequence of names it yields.
- Paths are Unix paths; `join` with an absolute name replaces the directory, as Rust does, and Windows prefixes are not modelled.
- Indices are unbounded naturals; `usize` cannot overflow on a list held in memory.
- `Activation.SetKey`: the serde_json panic on a live document that is neither an object nor null is modelled as the error `Panicked`, and no file is written.
- `Activation.FactoryHome.CreateConfig`: paths are compared as strings, so `.`, `..` and symbolic links are not resolved; a name such as `../settings` is a new key to the model, while the source's `exists` check reaches the live file.
- `Activation.LiveFileIsNotAProfile`: the path strings differ; it covers directory entry names (no '/'), not arbitrary user text passed to `create_config`, and symbolic links are not modelled.
- Preservation of the live document is structural: the source re-serialises it, so formatting and key order are not kept byte for byte, only keys and values.
