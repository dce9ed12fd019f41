# AI-chat state of nuxt-boilerplate, in Dafny

This project models the sequential chat state of a Nuxt/Vue AI-chat application. It covers six parts:

- **Model selector** (`useAIModel`): a fixed catalog of six OpenAI and Anthropic models, a default configuration, `updateConfig`, `resetConfig`, `loadConfig`/`saveConfig` over browser storage, and `initializeModel`, which picks the provider's chat client.
- **Credential gate** (`useApiKeyValidation`): checks an API key with one request to OpenAI's model-listing endpoint (`/v1/models`), whichever provider is configured. It stores the key under `openai_api_key` when OpenAI accepts it. `initialize` passes that key on to `initializeModel` even when the provider is anthropic, so a genuine Anthropic key never passes the check.
- **Conversation round trip** (`useReflectionAgent`): `sendMessage` appends the user's trimmed text, invokes the client with a system preamble plus the whole history, and appends exactly one reply or one fixed error message. `initialize` builds the client from a stored key after revalidating it.
- **Agent role table** (`useAgentConfig`), **metrics counters** (`useAgentMetrics`) and **document store** (`useDocumentStore`).

Remote and environmental results are method parameters:

- `FetchOutcome`: the outcome of the key-check request.
- `InvokeOutcome`: the model's response content, or the exception it threw.
- `freshId`: the id `uuidv4` produced.
- `WebStorage.inBrowser`: whether `window` exists.

`localStorage` is modelled as the two entries the core uses (class `WebStorage`). The configuration entry holds what `JSON.parse` gives back, so no text is parsed.

Objects whose fields the source updates in place are classes: `AIModel`, `ApiKeyValidation`, `ReflectionAgent`, `AgentConfigStore`, `AgentMetrics` and `DocumentStore`. Each method's postcondition gives the whole new state in terms of a specification function. The properties are proved about those functions.

Three behaviours of the code the model keeps:

- A patch that sets only `provider` can break `ModelConfigs.Consistent` (the provider is the catalog's provider for the model). `ModelConfigs.ProviderOnlyPatchBreaksConsistency` shows this, and `ModelConfigs.UpdatePreservesConsistency` states the condition under which an update keeps it.
- `loadConfig` checks only that the eight keys are present, not the types of their values.
- Nothing calls `loadConfig`: the selector starts from `{ ...defaultConfig }` (useAIModel.ts:91) and does not return `loadConfig` (lines 190-199). The saved `ai_model_config` entry is therefore never read back, and `ModelConfigs.LoadAfterSave` and `AIModel.UpdateThenLoad` describe a round trip the program as written never performs.

## Model

| member | source | states |
|---|---|---|
| `ModelConfigs.Find` | composables/useAIModel.ts:106 | `find` returns the first catalog entry with the given value, and `None` exactly when no entry has it |
| `ModelConfigs.CatalogEntry` | composables/useAIModel.ts:172 | `defaultModels.find` by value: a found entry is a catalog entry with exactly that value, and nothing is found only when no catalog entry has it |
| `ModelConfigs.CatalogValuesDistinct` | composables/useAIModel.ts:27-70 | catalog values are pairwise distinct, and looking up an entry's value finds that entry |
| `ModelConfigs.DefaultConfigInCatalog` | composables/useAIModel.ts:43-82 | the default `gpt-3.5-turbo` is listed with provider openai; the default streams and allows 4096 tokens |
| `ModelConfigs.CatalogWellFormed` | composables/useAIModel.ts:27-70 | listed names are non-empty and every listed provider is openai or anthropic |
| `ModelConfigs.UpdatedConfig` | composables/useAIModel.ts:169-181 | a listed `modelName` in the patch forces the catalog's provider over the patch's; otherwise `provider` is the patch's value if given, else the old value; every other field is the patch's value if given, else the old one |
| `ModelConfigs.SelectingClaudeSwitchesProvider` | composables/useAIModel.ts:169-181 | from any configuration, selecting `claude-3-opus-20240229` gives provider anthropic |
| `ModelConfigs.UpdatePreservesConsistency` | composables/useAIModel.ts:169-181 | an update keeps the provider consistent with the catalog unless the patch sets `provider` without a listed model |
| `ModelConfigs.ProviderOnlyPatchBreaksConsistency` | composables/useAIModel.ts:169-181 | a patch setting only `provider` can make the configuration inconsistent with the catalog |
| `ModelConfigs.Serialize` | composables/useAIModel.ts:120-126 | the saved entry carries all eight keys of the configuration |
| `ModelConfigs.LoadConfig` | composables/useAIModel.ts:96-118 | returns the defaults when there is no browser, nothing stored, no object, or a missing key (`StoredConfig.HasAllKeys`: each of the eight default keys is present); otherwise the stored fields, with a falsy provider replaced by the catalog provider of a listed model |
| `ModelConfigs.LoadAfterSave` | composables/useAIModel.ts:96-126 | loading what was saved returns the saved configuration, only repairing an empty provider of a listed model; for a consistent configuration it returns exactly what was saved |
| `ModelConfigs.LoadKeepsConsistency` | composables/useAIModel.ts:96-118 | a loaded configuration is consistent with the catalog whenever the stored provider was empty or matched the catalog |
| `AIModel.Truthy` | composables/useAIModel.ts:137 | `!apiKey` as JavaScript reads it: a missing key and the empty string are both falsy, and a truthy key is non-empty |
| `AIModel.ClientFor` | composables/useAIModel.ts:128-161 | a client exists exactly when the key is non-empty and the provider is openai or anthropic; it is that provider's client, built with the trimmed key and the configuration's model name, temperature, streaming flag and token ceiling |
| `AIModel.DefaultClient` | composables/useAIModel.ts:143-150 | with the default configuration, any non-empty key gives an OpenAI `gpt-3.5-turbo` client |
| `AIModel.AIModel.constructor` | composables/useAIModel.ts:91-92 | a new selector holds the default configuration and no client |
| `AIModel.AIModel.SaveConfig` | composables/useAIModel.ts:120-126 | in a browser the entry `ai_model_config` becomes the configuration; otherwise the failed write is swallowed and storage is unchanged |
| `AIModel.AIModel.InitializeModel` | composables/useAIModel.ts:128-167 | the client and the returned value both become `ClientFor(config, key)`; without a key the client is null |
| `AIModel.AIModel.UpdateConfig` | composables/useAIModel.ts:169-183 | the configuration becomes the merge, and storage holds the new configuration (unchanged, without error, when the write fails) |
| `AIModel.AIModel.ResetConfig` | composables/useAIModel.ts:185-188 | the configuration becomes the defaults, and storage holds them when in a browser |
| `AIModel.UpdateThenLoad` | composables/useAIModel.ts:178-182 | loading after a consistency-keeping update returns the updated configuration |
| `JsText.Trim` | composables/useReflectionAgent.ts:44-48 | `trim` keeps a contiguous slice that does not start or end with whitespace and drops only whitespace; the result is empty exactly when the input is all whitespace |
| `JsText.Includes` | composables/useReflectionAgent.ts:80 | `includes` holds exactly when the text occurs at some position, which needs it to be no longer than the string; a prefix always occurs |
| `JsText.TrimIdempotent` | composables/useReflectionAgent.ts:44-48 | trimming twice equals trimming once |
| `ApiKeyValidation.Decide` | composables/useApiKeyValidation.ts:6-32 | the key is valid exactly when it is non-empty, the response is OK and storage is reachable; only then is the key stored and the error cleared; an empty key gives 'Please enter an API key.', a non-OK response 'Invalid API key.', an exception 'Failed to initialize with the provided API key.' |
| `ApiKeyValidation.ApiKeyValidation.constructor` | composables/useApiKeyValidation.ts:1-4 | the gate starts with no error and no requests made |
| `ApiKeyValidation.ApiKeyValidation.ValidateApiKey` | composables/useApiKeyValidation.ts:6-32 | result, error and stored key follow `Decide`; an empty key makes no request, any other key exactly one |
| `ApiKeyValidation.ApiKeyValidation.GetStoredApiKey` | composables/useApiKeyValidation.ts:34-37 | returns the stored key, and null outside a browser |
| `ApiKeyValidation.ApiKeyValidation.ClearApiKey` | composables/useApiKeyValidation.ts:39-42 | removes the stored key; outside a browser it does nothing |
| `ApiKeyValidation.ValidateReadClear` | composables/useApiKeyValidation.ts:24-42 | after a successful validation the stored key reads back as that key; after clearing it reads back as null |
| `ReflectionAgent.ConvertMessage` | composables/useReflectionAgent.ts:31-40 | human, AI and system messages become stored messages with the matching role and the same content; any other class throws 'Unsupported message type' |
| `ReflectionAgent.ToChatMessage` | composables/useReflectionAgent.ts:62-64 | a human message is sent as human; every other role, error included, is sent as AI with the same content |
| `ReflectionAgent.ConvertAfterSend` | composables/useReflectionAgent.ts:31-64 | converting a sent message back returns human and assistant messages unchanged; system and error messages come back as assistant messages |
| `ReflectionAgent.ToChatMessages` | composables/useReflectionAgent.ts:62-64 | the history is sent message by message, in order |
| `ReflectionAgent.Prompt` | composables/useReflectionAgent.ts:60-65 | the prompt is one system message followed by every stored message in order |
| `ReflectionAgent.Reply` | composables/useReflectionAgent.ts:67-78 | a response becomes an assistant message with its content; an exception becomes an error message with the fixed text |
| `ReflectionAgent.IsCredentialError` | composables/useReflectionAgent.ts:80 | only a thrown `Error` whose message contains 'API key' counts: a response never does, and a message starting with 'API key' always does |
| `ReflectionAgent.ReflectionAgent.Blocked` | composables/useReflectionAgent.ts:44 | an all-whitespace input, a send in flight or a missing client blocks sending; a send that is not blocked has a non-whitespace character in its input |
| `ReflectionAgent.ReflectionAgent.constructor` | composables/useReflectionAgent.ts:9-27 | empty conversation, not loading, dialog closed, empty input; the selector and the gate share the storage |
| `ReflectionAgent.ReflectionAgent.SendMessage` | composables/useReflectionAgent.ts:43-87 | when blocked (empty trimmed input, in flight, or no client) nothing changes; otherwise the input is cleared, the trimmed question and exactly one reply are appended, the prompt sent ends with the question, and loading is false at the end; a credential error opens the dialog and drops the client, any other outcome leaves both |
| `ReflectionAgent.ReflectionAgent.Exchange` | composables/useReflectionAgent.ts:50-86 | past the guard: the prompt sent is the history with the question appended, exactly one reply follows the question, loading ends false, and only a credential error opens the dialog and drops the client |
| `ReflectionAgent.ReflectionAgent.Initialize` | composables/useReflectionAgent.ts:90-102 | with no stored key the dialog opens and nothing else changes; a stored key is revalidated, and if accepted the client is built from it, otherwise the dialog opens |
| `ReflectionAgent.PromptEndsWithQuestion` | composables/useReflectionAgent.ts:53-65 | the prompt ends with the new question as a human message, after the earlier history |
| `ReflectionAgent.CredentialErrorExamples` | composables/useReflectionAgent.ts:80-83 | an `Error` whose message contains 'API key' is a credential error; a non-`Error` exception or a response never is |
| `AgentConfig.UpdatedRoles` | composables/useAgentConfig.ts:48-56 | every role with the given name is replaced by the new role; the other roles, the length and the order are kept |
| `AgentConfig.UpdateAbsentRole` | composables/useAgentConfig.ts:48-51 | updating a name that is not present leaves the list unchanged |
| `AgentConfig.RemovedAt` | composables/useAgentConfig.ts:62-64 | `splice(i, 1)` removes exactly the i-th role for an index in range; a negative index counts from the end; an index at or past the end changes nothing |
| `AgentConfig.ActiveRoles` | composables/useAgentConfig.ts:77-79 | exactly the active roles, as an order-preserving subsequence |
| `AgentConfig.ActiveRolesCounts` | composables/useAgentConfig.ts:77-79 | filtering keeps each active role exactly as often as it occurs, and no inactive role |
| `AgentConfig.ActiveRolesAppend` | composables/useAgentConfig.ts:58-79 | after appending a role, the active roles gain that role at the end exactly when it is active |
| `AgentConfig.AllActive` | composables/useAgentConfig.ts:77-79 | when every role is active, filtering keeps the whole list |
| `AgentConfig.DefaultRolesAllActive` | composables/useAgentConfig.ts:16-43 | the defaults are Planner, Researcher and Executor, all active, with 2000 tokens, `gpt-3.5-turbo` and temperature 0.7 |
| `AgentConfig.Merged` | composables/useAgentConfig.ts:66-71 | patched fields take the patch's value, and the other fields keep theirs |
| `AgentConfig.MergeIdempotent` | composables/useAgentConfig.ts:66-71 | an empty patch changes nothing, and applying a patch twice equals applying it once |
| `AgentConfig.AgentConfigStore.constructor` | composables/useAgentConfig.ts:45-46 | the role table starts at the default configuration |
| `AgentConfig.AgentConfigStore.UpdateRole` | composables/useAgentConfig.ts:48-56 | only the roles change, as `UpdatedRoles` says |
| `AgentConfig.AgentConfigStore.AddRole` | composables/useAgentConfig.ts:58-60 | the role is appended at the end and nothing else changes |
| `AgentConfig.AgentConfigStore.RemoveRole` | composables/useAgentConfig.ts:62-64 | only the roles change, as `RemovedAt` says |
| `AgentConfig.AgentConfigStore.UpdateConfig` | composables/useAgentConfig.ts:66-71 | the configuration becomes the merge |
| `AgentConfig.AgentConfigStore.ResetConfig` | composables/useAgentConfig.ts:73-75 | the configuration becomes the default one |
| `AgentConfig.AgentConfigStore.GetActiveRoles` | composables/useAgentConfig.ts:77-79 | exactly the active roles of the current configuration, in order and with their multiplicity |
| `AgentConfig.GetActiveRolesAsWritten` | composables/useAgentConfig.ts:46-79 | on the reference as created, `getActiveRoles` throws; on a real configuration it returns the active roles |
| `AgentConfig.AsWrittenActiveRolesThrow` | composables/useAgentConfig.ts:46 | as written, asking for the active roles right after creation throws, instead of returning the three defaults |
| `AgentMetrics.Step` | composables/useAgentMetrics.ts:14-32 | each increment raises its own counter by one and leaves the other two; reset sets all three to zero |
| `AgentMetrics.RunCounts` | composables/useAgentMetrics.ts:14-24 | with no reset, each counter grows by exactly the number of its increments |
| `AgentMetrics.RunMonotone` | composables/useAgentMetrics.ts:14-24 | between resets no counter decreases |
| `AgentMetrics.RunFromLastReset` | composables/useAgentMetrics.ts:26-32 | the counters depend only on the operations after the last reset, which run from zero |
| `AgentMetrics.AgentMetrics.constructor` | composables/useAgentMetrics.ts:8-12 | all three counters start at zero |
| `AgentMetrics.AgentMetrics.IncrementTotal` | composables/useAgentMetrics.ts:14-16 | `total` rises by one; the other counters are unchanged |
| `AgentMetrics.AgentMetrics.IncrementSuccesses` | composables/useAgentMetrics.ts:18-20 | `successes` rises by one; the other counters are unchanged |
| `AgentMetrics.AgentMetrics.IncrementReflections` | composables/useAgentMetrics.ts:22-24 | `totalReflections` rises by one; the other counters are unchanged |
| `AgentMetrics.AgentMetrics.ResetMetrics` | composables/useAgentMetrics.ts:26-32 | all three counters become zero |
| `DocumentStore.Without` | composables/useDocumentStore.ts:22-24 | exactly the documents with a different id, as an order-preserving subsequence; an absent id changes nothing |
| `DocumentStore.WithoutCounts` | composables/useDocumentStore.ts:22-24 | removal keeps each document with another id exactly as often as it occurs, and none with that id |
| `DocumentStore.WithoutIdempotent` | composables/useDocumentStore.ts:22-24 | removing an id twice equals removing it once |
| `DocumentStore.WithoutAppend` | composables/useDocumentStore.ts:22-24 | removal distributes over concatenation, so the order of the kept documents is preserved |
| `DocumentStore.AddKeepsIdsDistinct` | composables/useDocumentStore.ts:12-20 | appending a document with a fresh id keeps the ids pairwise distinct |
| `DocumentStore.AddThenRemove` | composables/useDocumentStore.ts:12-24 | with a fresh id, removing the new id right after the append removes exactly the added document and keeps the rest in order |
| `DocumentStore.Contents` | composables/useDocumentStore.ts:31 | the contents of the documents, one per document, in order |
| `DocumentStore.Join` | composables/useDocumentStore.ts:31 | `join` of no parts is "", of one part is that part, and otherwise starts with the first part |
| `DocumentStore.JoinAppend` | composables/useDocumentStore.ts:31 | joining one more part adds the separator and that part at the end |
| `DocumentStore.JoinLength` | composables/useDocumentStore.ts:31 | the joined length is the parts' total length plus one separator between each pair of neighbours |
| `DocumentStore.DocumentStore.constructor` | composables/useDocumentStore.ts:10 | the store starts empty |
| `DocumentStore.DocumentStore.AddDocument` | composables/useDocumentStore.ts:12-20 | appends and returns a document with the fresh id, the name and the content; earlier documents are unchanged |
| `DocumentStore.DocumentStore.RemoveDocument` | composables/useDocumentStore.ts:22-24 | the documents become `Without(documents, id)` |
| `DocumentStore.DocumentStore.ClearDocuments` | composables/useDocumentStore.ts:26-28 | the store becomes empty |
| `DocumentStore.DocumentStore.GetDocumentContent` | composables/useDocumentStore.ts:30-32 | an empty store gives "", and a single document gives its content |
| `DocumentStore.ContentAfterAdd` | composables/useDocumentStore.ts:12-32 | after an append, the joined content is the old content, a blank line, then the new content (just the new content when the store was empty) |

## Left out

- `{ ...defaultConfig }` in composables/useAgentConfig.ts (lines 46 and 74) is a shallow copy, so `addRole` and `removeRole` mutate the shared default `roles` array. A later `resetConfig` then no longer restores the three default roles. The model uses value semantics and does not capture this aliasing.
- DocumentStore.DocumentStore.AddDocument: the model copies the document by value. `addDocument` pushes an object and returns that same object (useDocumentStore.ts:18-19), so a caller that mutated the returned document would change the stored one. No caller in the chat core mutates it.
- `updateConfig` in useAIModel.ts also writes the derived provider into the caller's patch object (line 174). The model does not capture this side effect on the argument.
- `JSON.stringify`/`JSON.parse` text is not modelled. A stored object is the eight optional fields. Extra keys and wrongly typed values are not represented. A falsy stored provider (`null`, `""`, `false`) is represented as "".
- Storage writes fail only outside a browser, where `window` is undeclared. Quota errors from `setItem` are not modelled separately; they take the same swallowed-error path.
- AIModel.ClientFor: assumes the SDK client constructors do not throw, so the `catch` branch of `initializeModel` (lines 162-166) is not modelled. That branch would leave the client null.
- Asynchrony is not modelled. `sendMessage` and `initialize` run to completion as one step, so `isLoading` is true only between the guard and the reply. Two overlapping sends are not modelled as interleavings. Streaming is not modelled.
- The model's answer is a string. Non-string `content` from the SDK is not represented.
- Refs that no modelled operation updates are not modelled: `showSidebar`, `maxReflections`, `temperature` and `availableModels`. Neither are the agent's `metrics` (not touched by `sendMessage`), console logging, or the request's URL and headers (the ghost `requests` log keeps only the key sent as bearer token).
- Counters are unbounded naturals. JavaScript numbers count exactly up to 2^53.
- `uuidv4` is the `freshId` parameter. Freshness is a hypothesis of `DocumentStore.AddThenRemove`, not a guarantee of the store.
- Left out as outside the chat core: the Firebase wrappers (auth, Firestore, storage), the server handlers, the Anthropic SDK wrappers, the faker/quote/weather randomness, the calculator tool's floating-point output, and configuration, i18n and theme files.

## Findings

| source | as written | input that shows it | evidently intended | confidence | as-written member | corrected member |
|---|---|---|---|---|---|---|
| composables/useAgentConfig.ts:46 | `ref('agentConfig', () => ({ ...defaultConfig }))`: `ref` keeps its first argument, so the configuration is the string "agentConfig" | call `getActiveRoles()` (or `updateRole`/`addRole`) right after `useAgentConfig()`: reading `roles` of a string gives `undefined`, and `.filter` on it throws | keyed state initialised from the factory, giving the default configuration with its three roles | high; not executed | `AgentConfig.GetActiveRolesAsWritten` | `AgentConfig.AgentConfigStore.constructor` |
