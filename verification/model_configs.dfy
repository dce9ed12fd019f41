/**
 * The value part of the model selector (composables/useAIModel.ts): the
 * catalog of selectable models, the default configuration, the merge that
 * `updateConfig` performs and the validate-or-default decision of
 * `loadConfig`. The stateful part is in module AIModel.
 */
module ModelConfigs {
  import opened Wrappers

  /** Provider names. At run time a configuration read back from storage may carry any string here. */
  const OPENAI: string := "openai"
  const ANTHROPIC: string := "anthropic"

  /** One entry of the model catalog. */
  datatype ModelOption = ModelOption(
    labelText: string,   // `label` in the source; `label` is a Dafny keyword
    value: string,
    provider: string,
    maxTokens: Option<int>,
    description: Option<string>)

  /** The fixed catalog of six selectable models. */
  const DefaultModels: seq<ModelOption> := [
    ModelOption("GPT-4 Turbo", "gpt-4-1106-preview", OPENAI, Some(4096),
      Some("Most capable GPT-4 model, better at tasks like writing, analysis, and coding")),
    ModelOption("GPT-4", "gpt-4", OPENAI, Some(8192),
      Some("More capable than any GPT-3.5 model, better at complex tasks")),
    ModelOption("GPT-3.5 Turbo", "gpt-3.5-turbo", OPENAI, Some(4096),
      Some("Most capable GPT-3.5 model, optimized for chat at 1/10th the cost of GPT-4")),
    ModelOption("Claude 3 Opus", "claude-3-opus-20240229", ANTHROPIC, Some(4096),
      Some("Most capable Claude model, best for complex tasks")),
    ModelOption("Claude 3 Sonnet", "claude-3-sonnet-20240229", ANTHROPIC, Some(4096),
      Some("Balanced model for most tasks")),
    ModelOption("Claude 3 Haiku", "claude-3-haiku-20240229", ANTHROPIC, Some(4096),
      Some("Fastest and most compact Claude model"))
  ]

  /**
   * The model configuration. The sampling parameters are carried as
   * opaque reals: nothing here computes with them.
   */
  datatype ModelConfig = ModelConfig(
    modelName: string,
    provider: string,
    temperature: real,
    streaming: bool,
    maxTokens: int,
    topP: real,
    frequencyPenalty: real,
    presencePenalty: real)

  const DefaultConfig: ModelConfig :=
    ModelConfig("gpt-3.5-turbo", OPENAI, 0.7, true, 4096, 1.0, 0.0, 0.0)

  /** `models.find(m => m.value === name)`: the first entry whose value is `name`. */
  function Find(models: seq<ModelOption>, name: string): (r: Option<ModelOption>)
    ensures r.None? <==> forall i :: 0 <= i < |models| ==> models[i].value != name
    ensures r.Some? ==> exists i :: 0 <= i < |models| && models[i] == r.value && r.value.value == name
                                    && forall j :: 0 <= j < i ==> models[j].value != name
  {
    if models == [] then None
    else if models[0].value == name then Some(models[0])
    else
      var r := Find(models[1..], name);
      assert r.Some? ==> exists i :: 0 <= i < |models[1..]| && models[1..][i] == r.value && r.value.value == name
                                     && forall j :: 0 <= j < i ==> models[1..][j].value != name;
      assert r.Some? ==> exists i :: 1 <= i < |models| && models[i] == r.value && r.value.value == name
                                     && forall j :: 1 <= j < i ==> models[j].value != name;
      r
  }

  /** The catalog entry for a model name, if it is listed. */
  function CatalogEntry(name: string): (r: Option<ModelOption>)
    ensures r.Some? ==> r.value in DefaultModels && r.value.value == name
    ensures r.None? ==> forall m | m in DefaultModels :: m.value != name
  {
    Find(DefaultModels, name)
  }

  /** Catalog values are pairwise distinct, so an entry is found exactly at its own position. */
  lemma CatalogValuesDistinct()
    ensures forall i, j :: 0 <= i < j < |DefaultModels| ==> DefaultModels[i].value != DefaultModels[j].value
    ensures forall i :: 0 <= i < |DefaultModels| ==> CatalogEntry(DefaultModels[i].value) == Some(DefaultModels[i])
  {
    CatalogValueLengths();
    forall i | 0 <= i < |DefaultModels|
      ensures CatalogEntry(DefaultModels[i].value) == Some(DefaultModels[i])
    {
      FindDistinct(DefaultModels, i);
    }
  }

  /** The six catalog values have six different lengths. */
  lemma CatalogValueLengths()
    ensures forall i, j :: 0 <= i < j < |DefaultModels| ==> |DefaultModels[i].value| != |DefaultModels[j].value|
  {
    var lengths := seq(|DefaultModels|, i requires 0 <= i < |DefaultModels| => |DefaultModels[i].value|);
    assert lengths == [18, 5, 13, 22, 24, 23];
  }

  /** In a list with pairwise distinct values, looking up the value at `i` finds entry `i`. */
  lemma FindDistinct(models: seq<ModelOption>, i: nat)
    requires i < |models|
    requires forall j, k :: 0 <= j < k < |models| ==> models[j].value != models[k].value
    ensures Find(models, models[i].value) == Some(models[i])
  {
    var r := Find(models, models[i].value);
    var k :| 0 <= k < |models| && models[k] == r.value && r.value.value == models[i].value
              && forall j :: 0 <= j < k ==> models[j].value != models[i].value;
  }

  /** The default configuration names a listed model and carries that model's provider. */
  lemma DefaultConfigInCatalog()
    ensures CatalogEntry(DefaultConfig.modelName) == Some(DefaultModels[2])
    ensures DefaultModels[2].provider == DefaultConfig.provider == OPENAI
    ensures DefaultConfig.maxTokens == 4096 && DefaultConfig.streaming
  {
    CatalogValuesDistinct();
  }

  /** Every listed model has a non-empty name and one of the two known providers. */
  lemma CatalogWellFormed(name: string)
    ensures CatalogEntry(name).Some? ==> name != ""
    ensures CatalogEntry(name).Some? ==> CatalogEntry(name).value.provider in {OPENAI, ANTHROPIC}
  {
  }

  /** The provider recorded for `c.modelName` in the catalog, when the catalog lists it, is `c.provider`. */
  predicate Consistent(c: ModelConfig) {
    CatalogEntry(c.modelName).Some? ==> c.provider == CatalogEntry(c.modelName).value.provider
  }

  /** A `Partial<ModelConfig>`: a field that is `None` is absent from the patch. */
  datatype ConfigPatch = ConfigPatch(
    modelName: Option<string>,
    provider: Option<string>,
    temperature: Option<real>,
    streaming: Option<bool>,
    maxTokens: Option<int>,
    topP: Option<real>,
    frequencyPenalty: Option<real>,
    presencePenalty: Option<real>)

  /** The patch that sets only `modelName`. */
  function ModelNamePatch(name: string): ConfigPatch {
    ConfigPatch(Some(name), None, None, None, None, None, None, None)
  }

  /**
   * `updateConfig`'s new configuration: when the patch carries a truthy
   * `modelName` that the catalog lists, the patch's `provider` is replaced
   * by the catalog's; then the patch is spread over the old configuration.
   */
  function UpdatedConfig(c: ModelConfig, p: ConfigPatch): (r: ModelConfig)
    ensures p.modelName.Some? && CatalogEntry(p.modelName.value).Some? ==>
              r.provider == CatalogEntry(p.modelName.value).value.provider
    ensures p.modelName.None? || CatalogEntry(p.modelName.value).None? ==>
              r.provider == p.provider.GetOr(c.provider)
    ensures && r.modelName == p.modelName.GetOr(c.modelName)
            && r.temperature == p.temperature.GetOr(c.temperature)
            && r.streaming == p.streaming.GetOr(c.streaming)
            && r.maxTokens == p.maxTokens.GetOr(c.maxTokens)
            && r.topP == p.topP.GetOr(c.topP)
            && r.frequencyPenalty == p.frequencyPenalty.GetOr(c.frequencyPenalty)
            && r.presencePenalty == p.presencePenalty.GetOr(c.presencePenalty)
  {
    var provider :=
      if p.modelName.Some? && p.modelName.value != "" && CatalogEntry(p.modelName.value).Some?
      then Some(CatalogEntry(p.modelName.value).value.provider)
      else p.provider;
    ModelConfig(
      p.modelName.GetOr(c.modelName),
      provider.GetOr(c.provider),
      p.temperature.GetOr(c.temperature),
      p.streaming.GetOr(c.streaming),
      p.maxTokens.GetOr(c.maxTokens),
      p.topP.GetOr(c.topP),
      p.frequencyPenalty.GetOr(c.frequencyPenalty),
      p.presencePenalty.GetOr(c.presencePenalty))
  }

  /** Selecting "claude-3-opus-20240229" from any configuration switches the provider to Anthropic. */
  lemma SelectingClaudeSwitchesProvider(c: ModelConfig)
    ensures UpdatedConfig(c, ModelNamePatch("claude-3-opus-20240229")).provider == ANTHROPIC
    ensures UpdatedConfig(c, ModelNamePatch("claude-3-opus-20240229")).modelName == "claude-3-opus-20240229"
  {
    assert CatalogEntry("claude-3-opus-20240229") == Some(DefaultModels[3]);
  }

  /**
   * An update keeps the configuration consistent with the catalog unless
   * the patch sets `provider` without also naming a listed model.
   */
  lemma UpdatePreservesConsistency(c: ModelConfig, p: ConfigPatch)
    requires Consistent(c)
    requires p.provider.Some? ==> p.modelName.Some? && CatalogEntry(p.modelName.value).Some?
    ensures Consistent(UpdatedConfig(c, p))
  {
  }

  /** A patch that sets only `provider` can break that consistency. */
  lemma ProviderOnlyPatchBreaksConsistency()
    ensures Consistent(DefaultConfig)
    ensures !Consistent(UpdatedConfig(DefaultConfig,
                          ConfigPatch(None, Some(ANTHROPIC), None, None, None, None, None, None)))
  {
    DefaultConfigInCatalog();
  }

  /**
   * What `JSON.parse` gives back for the stored configuration entry: not an
   * object at all, or an object in which each of the eight keys may be
   * missing. A falsy `provider` (null, "", false) is written as "".
   */
  datatype StoredConfig =
    | Unparsable
    | Parsed(
        modelName: Option<string>,
        provider: Option<string>,
        temperature: Option<real>,
        streaming: Option<bool>,
        maxTokens: Option<int>,
        topP: Option<real>,
        frequencyPenalty: Option<real>,
        presencePenalty: Option<real>)
  {
    /** Every key of the default configuration is present. */
    predicate HasAllKeys() {
      && Parsed? && modelName.Some? && provider.Some? && temperature.Some? && streaming.Some?
      && maxTokens.Some? && topP.Some? && frequencyPenalty.Some? && presencePenalty.Some?
    }
  }

  /** The object `JSON.stringify` writes for `c` and `JSON.parse` reads back. */
  function Serialize(c: ModelConfig): (s: StoredConfig)
    ensures s.HasAllKeys()
  {
    Parsed(Some(c.modelName), Some(c.provider), Some(c.temperature), Some(c.streaming),
           Some(c.maxTokens), Some(c.topP), Some(c.frequencyPenalty), Some(c.presencePenalty))
  }

  /**
   * `loadConfig`: the defaults when there is no browser storage, nothing
   * stored, an entry that does not parse to an object, or one missing any
   * key; otherwise the stored values, with a falsy provider replaced by the
   * catalog's provider when the stored model name is listed.
   */
  function LoadConfig(inBrowser: bool, entry: Option<StoredConfig>): (c: ModelConfig)
    ensures !inBrowser || entry.None? || !entry.value.HasAllKeys() ==> c == DefaultConfig
    ensures inBrowser && entry.Some? && entry.value.HasAllKeys() ==>
              var s := entry.value;
              && c.modelName == s.modelName.value && c.temperature == s.temperature.value
              && c.streaming == s.streaming.value && c.maxTokens == s.maxTokens.value
              && c.topP == s.topP.value && c.frequencyPenalty == s.frequencyPenalty.value
              && c.presencePenalty == s.presencePenalty.value
              && c.provider == (if s.provider.value == "" && CatalogEntry(s.modelName.value).Some?
                                then CatalogEntry(s.modelName.value).value.provider
                                else s.provider.value)
  {
    if !inBrowser || entry.None? then DefaultConfig
    else
      var s := entry.value;
      if !s.HasAllKeys() then DefaultConfig
      else
        var found := CatalogEntry(s.modelName.value);
        var provider := if s.provider.value == "" && found.Some? then found.value.provider else s.provider.value;
        ModelConfig(s.modelName.value, provider, s.temperature.value, s.streaming.value,
                    s.maxTokens.value, s.topP.value, s.frequencyPenalty.value, s.presencePenalty.value)
  }

  /**
   * Loading what was saved gives the saved configuration back, except that
   * an empty provider of a listed model is repaired from the catalog.
   */
  lemma {:induction false} LoadAfterSave(c: ModelConfig)
    ensures LoadConfig(true, Some(Serialize(c))) ==
              if c.provider == "" && CatalogEntry(c.modelName).Some?
              then c.(provider := CatalogEntry(c.modelName).value.provider)
              else c
    ensures Consistent(c) ==> LoadConfig(true, Some(Serialize(c))) == c
  {
    if c.provider == "" && CatalogEntry(c.modelName).Some? {
      CatalogWellFormed(c.modelName);
    }
  }

  /** Whatever is stored, the loaded configuration is consistent when the stored one was. */
  lemma LoadKeepsConsistency(inBrowser: bool, entry: Option<StoredConfig>)
    requires entry.Some? && entry.value.HasAllKeys() ==>
               var s := entry.value;
               CatalogEntry(s.modelName.value).Some? && s.provider.value != "" ==>
                 s.provider.value == CatalogEntry(s.modelName.value).value.provider
    ensures Consistent(LoadConfig(inBrowser, entry))
  {
    DefaultConfigInCatalog();
  }
}
