/**
 * The credential gate (composables/useApiKeyValidation.ts): a candidate key
 * is checked with one request to OpenAI's model-listing endpoint
 * (`/v1/models`), whichever provider is configured, and stored under
 * "openai_api_key" when OpenAI accepts it. A verdict therefore never
 * depends on the provider.
 */
module ApiKeyValidation {
  import opened Wrappers
  import opened BrowserStorage

  const EMPTY_KEY_ERROR: string := "Please enter an API key."
  const INVALID_KEY_ERROR: string := "Invalid API key."
  const REQUEST_FAILED_ERROR: string := "Failed to initialize with the provided API key."

  /** What the request to the model-listing endpoint gives: a response (with its `ok` flag) or a thrown exception. */
  datatype FetchOutcome = Response(ok: bool) | NetworkFailure

  /** The result of `validateApiKey`: its return value, the error it leaves, and whether it stores the key. */
  datatype Verdict = Verdict(valid: bool, error: Option<string>, storesKey: bool)

  /**
   * The four-way decision of `validateApiKey`. An empty key is refused
   * before any request; a non-OK response means an invalid key; an OK
   * response stores the key and clears the error, unless storage is out of
   * reach (no `window`), where the write throws and the exception handler
   * reports the same failure as a network error.
   */
  function Decide(apiKey: string, response: FetchOutcome, inBrowser: bool): (v: Verdict)
    ensures v.valid <==> apiKey != "" && response == Response(true) && inBrowser
    ensures v.storesKey <==> v.valid
    ensures v.valid <==> v.error.None?
    ensures apiKey == "" ==> v.error == Some(EMPTY_KEY_ERROR)
    ensures apiKey != "" && response == Response(false) ==> v.error == Some(INVALID_KEY_ERROR)
    ensures apiKey != "" && (response == NetworkFailure || (response == Response(true) && !inBrowser)) ==>
              v.error == Some(REQUEST_FAILED_ERROR)
  {
    if apiKey == "" then Verdict(false, Some(EMPTY_KEY_ERROR), false)
    else match response
      case NetworkFailure => Verdict(false, Some(REQUEST_FAILED_ERROR), false)
      case Response(ok) =>
        if !ok then Verdict(false, Some(INVALID_KEY_ERROR), false)
        else if !inBrowser then Verdict(false, Some(REQUEST_FAILED_ERROR), false)
        else Verdict(true, None, true)
  }

  class ApiKeyValidation {
    /** The error message shown to the user; `None` is `null`. */
    var error: Option<string>
    const storage: WebStorage
    /** The keys sent, as bearer tokens, to the model-listing endpoint, oldest first. */
    ghost var requests: seq<string>

    constructor(storage: WebStorage)
      ensures this.storage == storage && error == None && requests == []
    {
      this.storage := storage;
      error := None;
      requests := [];
    }

    /**
     * `validateApiKey`: one request for a non-empty key and none for an
     * empty one; the error, the stored key and the result follow `Decide`.
     */
    method ValidateApiKey(apiKey: string, response: FetchOutcome) returns (valid: bool)
      modifies this`error, this`requests, storage`apiKeyEntry
      ensures var v := Decide(apiKey, response, storage.inBrowser);
              && valid == v.valid && error == v.error
              && storage.apiKeyEntry == (if v.storesKey then Some(apiKey) else old(storage.apiKeyEntry))
      ensures requests == if apiKey == "" then old(requests) else old(requests) + [apiKey]
    {
      if apiKey == "" {
        error := Some(EMPTY_KEY_ERROR);
        return false;
      }
      requests := requests + [apiKey];
      match response
      case NetworkFailure =>
        error := Some(REQUEST_FAILED_ERROR);
        valid := false;
      case Response(ok) =>
        if !ok {
          error := Some(INVALID_KEY_ERROR);
          valid := false;
        } else if !storage.inBrowser {
          error := Some(REQUEST_FAILED_ERROR);
          valid := false;
        } else {
          storage.apiKeyEntry := Some(apiKey);
          error := None;
          valid := true;
        }
    }

    /** `getStoredApiKey`: the stored key, or `None` outside a browser or when nothing is stored. */
    method GetStoredApiKey() returns (key: Option<string>)
      ensures key == if storage.inBrowser then storage.apiKeyEntry else None
    {
      if !storage.inBrowser {
        return None;
      }
      key := storage.apiKeyEntry;
    }

    /** `clearApiKey`: removes the stored key; outside a browser it does nothing. */
    method ClearApiKey()
      modifies storage`apiKeyEntry
      ensures storage.apiKeyEntry == if storage.inBrowser then None else old(storage.apiKeyEntry)
    {
      if storage.inBrowser {
        storage.apiKeyEntry := None;
      }
    }
  }

  /** Reading the key back after a successful validation gives that key; after clearing, nothing. */
  method ValidateReadClear(gate: ApiKeyValidation, apiKey: string, response: FetchOutcome)
    returns (valid: bool, afterValidate: Option<string>, afterClear: Option<string>)
    modifies gate, gate.storage
    ensures valid ==> afterValidate == Some(apiKey)
    ensures afterClear == None
  {
    valid := gate.ValidateApiKey(apiKey, response);
    afterValidate := gate.GetStoredApiKey();
    gate.ClearApiKey();
    afterClear := gate.GetStoredApiKey();
  }
}
