/**
 * The browser's `localStorage`, reduced to the two entries the chat core
 * reads and writes. `JSON.stringify`/`JSON.parse` are abstracted away: the
 * configuration entry holds what parsing gives back.
 */
module BrowserStorage {
  import opened Wrappers
  import opened ModelConfigs

  const CONFIG_KEY: string := "ai_model_config"
  const API_KEY_KEY: string := "openai_api_key"

  class WebStorage {
    /** Whether `window` exists: false during server-side rendering, where every storage access throws. */
    const inBrowser: bool
    /** The entry under "ai_model_config". */
    var configEntry: Option<StoredConfig>
    /** The entry under "openai_api_key": the raw key text. */
    var apiKeyEntry: Option<string>

    constructor(inBrowser: bool, configEntry: Option<StoredConfig>, apiKeyEntry: Option<string>)
      ensures this.inBrowser == inBrowser
      ensures this.configEntry == configEntry && this.apiKeyEntry == apiKeyEntry
    {
      this.inBrowser := inBrowser;
      this.configEntry := configEntry;
      this.apiKeyEntry := apiKeyEntry;
    }
  }
}
