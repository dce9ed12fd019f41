/**
 * The stateful part of the model selector (composables/useAIModel.ts): the
 * current configuration and chat client, `saveConfig`, `initializeModel`,
 * `updateConfig` and `resetConfig`.
 */
module AIModel {
  import opened Wrappers
  import opened JsText
  import opened ModelConfigs
  import opened BrowserStorage

  /**
   * A chat client as constructed, an opaque tagged value: which SDK class,
   * and the settings passed to its constructor.
   */
  datatype ChatModel =
    | ChatOpenAI(openAIApiKey: string, modelName: string, temperature: real, streaming: bool, maxTokens: int)
    | ChatAnthropic(anthropicApiKey: string, modelName: string, temperature: real, streaming: bool, maxTokens: int)
  {
    function Provider(): string {
      if ChatOpenAI? then OPENAI else ANTHROPIC
    }

    function ApiKey(): string {
      if ChatOpenAI? then openAIApiKey else anthropicApiKey
    }
  }

  /** A JavaScript string is falsy exactly when it is empty. */
  predicate Truthy(s: Option<string>)
    ensures s.None? || s == Some("") ==> !Truthy(s)
    ensures Truthy(s) ==> |s.value| > 0
  {
    s.Some? && s.value != ""
  }

  /**
   * The client `initializeModel` ends with: none without a (non-empty) key
   * or for a provider that is neither OpenAI nor Anthropic; otherwise the
   * provider's client, built from the trimmed key and the configuration's
   * model name, temperature, streaming flag and token ceiling.
   */
  function ClientFor(c: ModelConfig, apiKey: Option<string>): (m: Option<ChatModel>)
    ensures m.Some? <==> Truthy(apiKey) && c.provider in {OPENAI, ANTHROPIC}
    ensures m.Some? ==>
              && m.value.Provider() == c.provider
              && m.value.ApiKey() == Trim(apiKey.value)
              && m.value.modelName == c.modelName
              && m.value.temperature == c.temperature
              && m.value.streaming == c.streaming
              && m.value.maxTokens == c.maxTokens
  {
    if !Truthy(apiKey) then None
    else if c.provider == OPENAI then
      Some(ChatOpenAI(Trim(apiKey.value), c.modelName, c.temperature, c.streaming, c.maxTokens))
    else if c.provider == ANTHROPIC then
      Some(ChatAnthropic(Trim(apiKey.value), c.modelName, c.temperature, c.streaming, c.maxTokens))
    else None
  }

  class AIModel {
    var config: ModelConfig
    /** The current chat client; `None` is `null`. */
    var model: Option<ChatModel>
    const storage: WebStorage

    /** A fresh selector starts from the defaults (it does not call `loadConfig`) and without a client. */
    constructor(storage: WebStorage)
      ensures this.storage == storage
      ensures config == DefaultConfig && model == None
    {
      this.storage := storage;
      config := DefaultConfig;
      model := None;
    }

    /**
     * `saveConfig`: writes the configuration under "ai_model_config". Outside
     * a browser the write throws and is swallowed, so nothing changes.
     */
    method SaveConfig(newConfig: ModelConfig)
      modifies storage`configEntry
      ensures storage.configEntry == if storage.inBrowser then Some(Serialize(newConfig)) else old(storage.configEntry)
    {
      if storage.inBrowser {
        storage.configEntry := Some(Serialize(newConfig));
      }
    }

    /**
     * `initializeModel`: drops the current client, then builds the one the
     * configuration asks for when a key is given; returns the new client.
     */
    method InitializeModel(apiKey: Option<string>) returns (m: Option<ChatModel>)
      modifies this`model
      ensures m == model == ClientFor(config, apiKey)
    {
      model := None;
      if !Truthy(apiKey) {
        return None;
      }
      var key := Trim(apiKey.value);
      if config.provider == OPENAI {
        model := Some(ChatOpenAI(key, config.modelName, config.temperature, config.streaming, config.maxTokens));
      } else if config.provider == ANTHROPIC {
        model := Some(ChatAnthropic(key, config.modelName, config.temperature, config.streaming, config.maxTokens));
      }
      m := model;
    }

    /** `updateConfig`: merges the patch (provider derived from the catalog) and saves the result. */
    method UpdateConfig(patch: ConfigPatch)
      modifies this`config, storage`configEntry
      ensures config == UpdatedConfig(old(config), patch)
      ensures storage.configEntry == if storage.inBrowser then Some(Serialize(config)) else old(storage.configEntry)
    {
      config := UpdatedConfig(config, patch);
      SaveConfig(config);
    }

    /** `resetConfig`: back to the defaults, saved. */
    method ResetConfig()
      modifies this`config, storage`configEntry
      ensures config == DefaultConfig
      ensures storage.configEntry == if storage.inBrowser then Some(Serialize(DefaultConfig)) else old(storage.configEntry)
    {
      config := DefaultConfig;
      SaveConfig(config);
    }
  }

  /**
   * After an update in a browser, loading the stored entry gives the new
   * configuration back whenever that configuration is consistent with the
   * catalog, which an update that names a listed model guarantees.
   */
  lemma {:induction false} UpdateThenLoad(c: ModelConfig, p: ConfigPatch)
    requires Consistent(c)
    requires p.provider.Some? ==> p.modelName.Some? && CatalogEntry(p.modelName.value).Some?
    ensures LoadConfig(true, Some(Serialize(UpdatedConfig(c, p)))) == UpdatedConfig(c, p)
  {
    UpdatePreservesConsistency(c, p);
    LoadAfterSave(UpdatedConfig(c, p));
  }

  /** The default configuration yields an OpenAI GPT-3.5 Turbo client for any non-empty key. */
  lemma DefaultClient(key: string)
    requires key != ""
    ensures ClientFor(DefaultConfig, Some(key)) == Some(ChatOpenAI(Trim(key), "gpt-3.5-turbo", 0.7, true, 4096))
  {
  }
}
