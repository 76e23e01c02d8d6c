/**
 * The normaliser: `is_factory_format`, `convert_model` and
 * `convert_models`. An entry of a model profile, written in the legacy
 * snake_case shape, the camelCase shape or a mixture, is rewritten into the
 * nine-key canonical ("Factory") object; an entry that already carries
 * `id`, `index` and `displayName` is passed through untouched.
 */
module Normalize {
  import opened Wrappers
  import opened Json
  import opened Text

  /** The keys of a converted entry. */
  const CanonicalKeys: set<string> :=
    {"model", "id", "index", "baseUrl", "apiKey", "displayName", "maxOutputTokens", "noImageSupport", "provider"}

  /** An entry counts as canonical when it has the three keys, whatever their values. */
  function IsFactoryFormat(m: Json): (b: bool)
    ensures b <==> m.JObj? && "id" in m.fields && "index" in m.fields && "displayName" in m.fields
  {
    Get(m, "id").Some? && Get(m, "index").Some? && Get(m, "displayName").Some?
  }

  /** The first value if present, else the second. */
  function OrElse(first: Option<Json>, second: Option<Json>): Option<Json> {
    if first.Some? then first else second
  }

  /** The string held, or the default when absent or not a string. */
  function StringOr(v: Option<Json>, default: string): string {
    if v.Some? && AsStr(v.value).Some? then AsStr(v.value).value else default
  }

  /** The 64-bit integer held, or the default when absent or not such an integer. */
  function I64Or(v: Option<Json>, default: int): int {
    if v.Some? && AsI64(v.value).Some? then AsI64(v.value).value else default
  }

  /** A string read from the first present of two keys, else a default. */
  function PreferredString(m: Json, snake: string, camel: string, default: string): string {
    StringOr(OrElse(Get(m, snake), Get(m, camel)), default)
  }

  function DisplayName(m: Json): string {
    PreferredString(m, "model_display_name", "displayName", "Unknown")
  }

  function MaxTokens(m: Json): int {
    I64Or(OrElse(Get(m, "max_tokens"), Get(m, "maxOutputTokens")), 8192)
  }

  /** `supports_images` inverted if it is a boolean, else `noImageSupport` if that is one, else false. */
  function NoImageSupport(m: Json): bool {
    match BoolAt(m, "supports_images")
    case Some(supported) => !supported
    case None =>
      match BoolAt(m, "noImageSupport")
      case Some(flag) => flag
      case None => false
  }

  /** The boolean under `key`, if there is one. */
  function BoolAt(m: Json, key: string): Option<bool> {
    match Get(m, key)
    case Some(v) => AsBool(v)
    case None => None
  }

  /** The synthetic id `custom:<name, spaces as hyphens>-<index>`. */
  function MakeId(displayName: string, index: nat): string {
    "custom:" + ReplaceSpaces(displayName) + "-" + Decimal(index)
  }

  /** The `json!` object literal of a converted entry, key by key. */
  function FactoryEntry(model: string, id: string, index: nat, baseUrl: string, apiKey: string,
                        displayName: string, maxTokens: int, noImage: bool, provider: string): (r: Json)
    ensures r.JObj? && r.fields.Keys == CanonicalKeys
    ensures r.fields["model"] == JStr(model) && r.fields["id"] == JStr(id) && r.fields["index"] == JInt(index)
    ensures r.fields["baseUrl"] == JStr(baseUrl) && r.fields["apiKey"] == JStr(apiKey)
    ensures r.fields["displayName"] == JStr(displayName) && r.fields["maxOutputTokens"] == JInt(maxTokens)
    ensures r.fields["noImageSupport"] == JBool(noImage) && r.fields["provider"] == JStr(provider)
  {
    JObj(map[
      "model" := JStr(model),
      "id" := JStr(id),
      "index" := JInt(index),
      "baseUrl" := JStr(baseUrl),
      "apiKey" := JStr(apiKey),
      "displayName" := JStr(displayName),
      "maxOutputTokens" := JInt(maxTokens),
      "noImageSupport" := JBool(noImage),
      "provider" := JStr(provider)
    ])
  }

  /**
   * What a converted (not passed-through) entry looks like: exactly the nine
   * canonical keys, each holding a value of its type, `index` the position
   * and `id` derived from the display name and the position.
   */
  ghost predicate IsConvertedEntry(r: Json, index: nat) {
    && r.JObj?
    && r.fields.Keys == CanonicalKeys
    && r.fields["model"].JStr?
    && r.fields["baseUrl"].JStr?
    && r.fields["apiKey"].JStr?
    && r.fields["provider"].JStr?
    && r.fields["displayName"].JStr?
    && r.fields["maxOutputTokens"].JInt?
    && I64Min <= r.fields["maxOutputTokens"].i <= I64Max
    && r.fields["noImageSupport"].JBool?
    && r.fields["index"] == JInt(index)
    && r.fields["id"] == JStr(MakeId(r.fields["displayName"].s, index))
  }

  /** `convert_model`: one entry at position `index` in canonical form. */
  function ConvertModel(m: Json, index: nat): (r: Json)
    ensures IsFactoryFormat(m) ==> r == m
    ensures !IsFactoryFormat(m) ==> IsConvertedEntry(r, index)
    ensures IsFactoryFormat(r)
  {
    if IsFactoryFormat(m) then m
    else
      FactoryEntry(
        StringOr(Get(m, "model"), ""),
        MakeId(DisplayName(m), index),
        index,
        PreferredString(m, "base_url", "baseUrl", ""),
        PreferredString(m, "api_key", "apiKey", ""),
        DisplayName(m),
        MaxTokens(m),
        NoImageSupport(m),
        StringOr(Get(m, "provider"), "anthropic"))
  }

  /** The entry list of a profile: `customModels` if present, else `custom_models`; [] unless an array. */
  function SourceModels(config: Json): seq<Json> {
    var chosen := OrElse(Get(config, "customModels"), Get(config, "custom_models"));
    if chosen.Some? && AsArray(chosen.value).Some? then AsArray(chosen.value).value else []
  }

  /** `convert_models`: every entry converted at its own position. */
  function ConvertModels(config: Json): (r: Json)
    ensures r.JArr? && |r.items| == |SourceModels(config)|
    ensures forall i :: 0 <= i < |r.items| ==> r.items[i] == ConvertModel(SourceModels(config)[i], i)
    ensures forall i :: 0 <= i < |r.items| ==> IsFactoryFormat(r.items[i])
  {
    var src := SourceModels(config);
    JArr(seq(|src|, i requires 0 <= i < |src| => ConvertModel(src[i], i)))
  }

  /**
   * The source list: `customModels` wins whenever it is present, even when it
   * is not an array and `custom_models` is; `custom_models` is read only when
   * `customModels` is absent; a missing or non-array choice gives [].
   */
  lemma SourceListRules(config: Json)
    ensures Get(config, "customModels").Some? ==>
      SourceModels(config) == (if Get(config, "customModels").value.JArr? then Get(config, "customModels").value.items else [])
    ensures Get(config, "customModels").None? && Get(config, "custom_models").Some? ==>
      SourceModels(config) == (if Get(config, "custom_models").value.JArr? then Get(config, "custom_models").value.items else [])
    ensures Get(config, "customModels").None? && Get(config, "custom_models").None? ==> ConvertModels(config) == JArr([])
    ensures !config.JObj? ==> ConvertModels(config) == JArr([])
  {
  }

  /** A text field read from a snake_case key, else a camelCase key, else a default. */
  datatype TextField = TextField(out: string, snake: string, camel: string, default: string)

  const TextFields: seq<TextField> := [
    TextField("displayName", "model_display_name", "displayName", "Unknown"),
    TextField("baseUrl", "base_url", "baseUrl", ""),
    TextField("apiKey", "api_key", "apiKey", "")
  ]

  /** The four cases of a string read from a preferred key, then a fallback key, then a default. */
  lemma PreferredStringRules(m: Json, snake: string, camel: string, default: string)
    ensures var out := PreferredString(m, snake, camel, default);
      && (Get(m, snake).Some? && Get(m, snake).value.JStr? ==> out == Get(m, snake).value.s)
      && (Get(m, snake).Some? && !Get(m, snake).value.JStr? ==> out == default)
      && (Get(m, snake).None? && Get(m, camel).Some? && Get(m, camel).value.JStr? ==> out == Get(m, camel).value.s)
      && (Get(m, snake).None? && (Get(m, camel).None? || !Get(m, camel).value.JStr?) ==> out == default)
  {
  }

  /**
   * Priority and defaults of `displayName`, `baseUrl` and `apiKey`: a present
   * snake_case key decides (its string, or the default when it is not a
   * string, without looking at the camelCase key); otherwise the camelCase
   * key's string; otherwise the default.
   */
  lemma TextFieldRules(m: Json, index: nat, f: TextField)
    requires !IsFactoryFormat(m) && f in TextFields
    ensures var out := ConvertModel(m, index).fields[f.out];
      && (Get(m, f.snake).Some? && Get(m, f.snake).value.JStr? ==> out == Get(m, f.snake).value)
      && (Get(m, f.snake).Some? && !Get(m, f.snake).value.JStr? ==> out == JStr(f.default))
      && (Get(m, f.snake).None? && Get(m, f.camel).Some? && Get(m, f.camel).value.JStr? ==> out == Get(m, f.camel).value)
      && (Get(m, f.snake).None? && (Get(m, f.camel).None? || !Get(m, f.camel).value.JStr?) ==> out == JStr(f.default))
  {
    var r := ConvertModel(m, index);
    assert r.fields[f.out] == JStr(PreferredString(m, f.snake, f.camel, f.default)) by {
      if f == TextFields[0] {
      } else if f == TextFields[1] {
      } else {
        assert f == TextFields[2];
      }
    }
    PreferredStringRules(m, f.snake, f.camel, f.default);
  }

  /**
   * `model` and `provider` come from the key of the same name when it holds
   * a string, else default to "" and "anthropic".
   */
  lemma SingleKeyRules(m: Json, index: nat)
    requires !IsFactoryFormat(m)
    ensures var r := ConvertModel(m, index).fields;
      && r["model"] == (if Get(m, "model").Some? && Get(m, "model").value.JStr? then Get(m, "model").value else JStr(""))
      && r["provider"] == (if Get(m, "provider").Some? && Get(m, "provider").value.JStr? then Get(m, "provider").value else JStr("anthropic"))
  {
  }

  /**
   * `maxOutputTokens`: a present `max_tokens` decides (its value if it is a
   * 64-bit integer, else 8192); otherwise `maxOutputTokens` if it is a 64-bit
   * integer; otherwise 8192.
   */
  lemma MaxTokensRules(m: Json, index: nat)
    requires !IsFactoryFormat(m)
    ensures var out := ConvertModel(m, index).fields["maxOutputTokens"];
      var snake := Get(m, "max_tokens");
      var camel := Get(m, "maxOutputTokens");
      && (snake.Some? && AsI64(snake.value).Some? ==> out == snake.value)
      && (snake.Some? && AsI64(snake.value).None? ==> out == JInt(8192))
      && (snake.None? && camel.Some? && AsI64(camel.value).Some? ==> out == camel.value)
      && (snake.None? && (camel.None? || AsI64(camel.value).None?) ==> out == JInt(8192))
  {
  }

  /**
   * `noImageSupport`: the negation of a boolean `supports_images`; when
   * `supports_images` is absent or not a boolean, a boolean `noImageSupport`
   * as it is; otherwise false.
   */
  lemma NoImageSupportRules(m: Json, index: nat)
    requires !IsFactoryFormat(m)
    ensures var out := ConvertModel(m, index).fields["noImageSupport"];
      var supports := Get(m, "supports_images");
      var flag := Get(m, "noImageSupport");
      && (supports.Some? && supports.value.JBool? ==> out == JBool(!supports.value.b))
      && ((supports.None? || !supports.value.JBool?) && flag.Some? && flag.value.JBool? ==> out == flag.value)
      && ((supports.None? || !supports.value.JBool?) && (flag.None? || !flag.value.JBool?) ==> out == JBool(false))
  {
  }

  /** The entry every key defaults in: `{}` (or any non-object) at position 2. */
  lemma EmptyEntryAtTwo(m: Json)
    requires m == JObj(map[]) || !m.JObj?
    ensures ConvertModel(m, 2) == FactoryEntry("", "custom:Unknown-2", 2, "", "", "Unknown", 8192, false, "anthropic")
  {
    assert !IsFactoryFormat(m);
    assert DisplayName(m) == "Unknown";
    assert ReplaceSpaces("Unknown") == "Unknown";
    assert Decimal(2) == "2";
    assert MakeId("Unknown", 2) == "custom:Unknown-2";
    assert MaxTokens(m) == 8192 && !NoImageSupport(m);
    assert StringOr(Get(m, "model"), "") == "" && StringOr(Get(m, "provider"), "anthropic") == "anthropic";
    assert PreferredString(m, "base_url", "baseUrl", "") == "" && PreferredString(m, "api_key", "apiKey", "") == "";
  }

  /** A list made only of canonical entries is its own conversion. */
  lemma CanonicalListIsFixed(items: seq<Json>)
    requires forall i :: 0 <= i < |items| ==> IsFactoryFormat(items[i])
    ensures ConvertModels(JObj(map["customModels" := JArr(items)])) == JArr(items)
  {
    var r := ConvertModels(JObj(map["customModels" := JArr(items)]));
    assert SourceModels(JObj(map["customModels" := JArr(items)])) == items;
    assert r.items == items;
  }

  /** Converting an already converted list again changes nothing. */
  lemma ConvertModelsIdempotent(config: Json)
    ensures ConvertModels(JObj(map["customModels" := ConvertModels(config)])) == ConvertModels(config)
  {
    CanonicalListIsFixed(ConvertModels(config).items);
  }

  /**
   * Ids made at different positions differ, whatever the display names: the
   * index follows the last hyphen, and decimal digits contain no hyphen.
   */
  lemma IdsAtDistinctPositionsDiffer(a: string, i: nat, b: string, j: nat)
    requires i != j
    ensures MakeId(a, i) != MakeId(b, j)
  {
    var x, y := MakeId(a, i), MakeId(b, j);
    var di, dj := Decimal(i), Decimal(j);
    if |x| == |y| {
      if |di| < |dj| {
        var p := |x| - |di| - 1;
        assert x[p] == '-';
        assert y[p] == dj[|dj| - |di| - 1];
        assert x[p] != y[p];
      } else if |dj| < |di| {
        var p := |y| - |dj| - 1;
        assert y[p] == '-';
        assert x[p] == di[|di| - |dj| - 1];
        assert x[p] != y[p];
      } else {
        DecimalInjective(i, j);
        assert x[|x| - |di|..] == di;
        assert y[|y| - |dj|..] == dj;
        assert x[|x| - |di|..] != y[|y| - |dj|..];
      }
    }
  }

  /** Two converted (not passed-through) entries of one profile never share an id. */
  lemma ConvertedIdsDistinct(config: Json, i: nat, j: nat)
    requires i < j < |SourceModels(config)|
    requires !IsFactoryFormat(SourceModels(config)[i]) && !IsFactoryFormat(SourceModels(config)[j])
    ensures ConvertModels(config).items[i].fields["id"] != ConvertModels(config).items[j].fields["id"]
  {
    var r := ConvertModels(config).items;
    IdsAtDistinctPositionsDiffer(r[i].fields["displayName"].s, i, r[j].fields["displayName"].s, j);
  }
}
