# Purchase chatbot: a verified model of the client and backend core

This project models the core of a procurement chat assistant. The assistant has two parts:

- a React/TypeScript web client. It keeps chats and messages, names chats, talks to
  an HTTP API through a retrying client, checks the API's health, picks a language
  model from a fixed catalog, and shows short-lived notifications.
- a Python backend. It picks a model provider by name, builds the message list,
  recognises upload types, chooses a document loader, collects document chunks, and
  forwards prompts to a local Ollama server.

Things the code cannot compute itself become parameters:

- The network is a function from "the i-th fetch the program makes" to that fetch's
  outcome. Every operation that fetches returns the trace of fetches and delays it
  performs.
- Clocks, generated ids, timers, the stored API key, the guessed MIME type, the
  document loaders, the similarity search and the LLM's answer are also parameters.
- React state setters become methods of classes whose fields are the hook's state.
- Notifications a hook would show are returned as a sequence of requests.

Modules follow the source files:

| area | modules |
|---|---|
| chat data | `ChatTypes`, `ChatName`, `ChatUpdates` |
| chat hooks and components | `UseChat`, `UseChatMessages`, `ChatInput`, `Notifications` |
| transport | `ApiTypes`, `ApiClient`, `LegacyApiClient`, `Health`, `LlmApi`, `FormData`, `LocalStorage` |
| model selection | `ModelCatalog`, `ModelManager`, `ModelService`, `OllamaClient`, `UseModelSelection`, `UseLLM`, `UseAPIStatus`, `LlmService` |
| Python backend | `PyTypes`, `PyManager`, `PyFileUtils`, `PyDocumentLoaders`, `PyDocumentProcessor`, `PyOllama` |
| shared helpers | `Wrappers`, `Strings`, `Json` |

Some behaviours of the code differ from what its names suggest. The model keeps the
code's behaviour:

- `checkAPIHealth` passes positional arguments to a `request` that destructures an
  options object. Method, endpoint, data and retries therefore all arrive `undefined`.
  The probe goes to `new URL("undefined", baseUrl)` with the default retry budget,
  not to `/health`.
- `modelService.query` hands a `FormData` to a client that always applies
  `JSON.stringify`. The server therefore receives the text `{}`, and the question,
  model and key never reach it.
- The `isFormData` flag is never read.
- The shipped catalog has no `isLocal` field. No model is ever treated as local, so
  Ollama is never probed.
- Every greeting message has the id `"1"`.
- The canned reply mentions uploads whenever `files` is defined, even when it is an
  empty array.
- JavaScript's `replace` strips only the first `ollama/`. Python's strips every one.
- `application/msword` has a loader in `create_loader` but none in `_get_loader`.

## Model

| member | source | states |
|---|---|---|
| ChatName.GenerateChatName | src/utils/chat.ts:1-7 | The name is never empty and at most 33 characters long. It is "New Chat" when every content is blank. Otherwise it comes from the first non-blank content: verbatim when at most 30 characters, else its first 30 characters (leading blanks kept) followed by "..." |
| ChatName.FirstNonBlank | src/utils/chat.ts:2 | Finds the first content whose trim is non-empty; every earlier content is blank, and none is found only when all are blank |
| ChatName.SingleMessageName | src/utils/chat.ts:1-7 | For one message: "New Chat" when it is blank, otherwise the content or its 30-character prefix plus "..." |
| ChatName.LeadingBlanksIgnored | src/utils/chat.ts:2 | Prepending a blank message does not change the generated name |
| ChatTypes.FindChat | src/hooks/useChat.ts:23 | `chats.find` by id finds a chat exactly when the id is present, and what it finds is a chat of the list with that id |
| ChatTypes.FindChatAt | src/hooks/useChat.ts:23 | With distinct ids, looking up the id of chat i yields chat i |
| ChatTypes.OptionalFileNames | src/hooks/useChat.ts:43 | `files?.map(f => f.name)` is undefined exactly when files is; otherwise it lists the names in order |
| ChatTypes.SameIdsDistinct | src/hooks/useChat.ts:46-56 | A rewrite of the chat list that keeps the id sequence keeps the ids distinct |
| ChatUpdates.WithUserMessage | src/hooks/useChat.ts:47-53 | The updated chat keeps its id and creation time and gains the message at the end. It is renamed from the new message only if it had exactly one message before; otherwise it keeps its name |
| ChatUpdates.WithMessage | src/hooks/useChat.ts:69-73 | The reply is appended and id, name and creation time are kept |
| ChatUpdates.AppendUserMessage | src/hooks/useChat.ts:46-56 | The map keeps length and ids. Chats with another id are unchanged; the chat with the id gets the user-message update |
| ChatUpdates.AppendMessage | src/hooks/useChat.ts:69-73 | The map keeps length and ids. Only the chat with the id gets the message appended |
| ChatUpdates.RemoveChat | src/hooks/useChat.ts:79 | The filter removes the id and keeps every other chat; nothing new appears (order: `RemoveDistributes`, `RemoveAt`) |
| ChatUpdates.RemoveDistributes | src/hooks/useChat.ts:79 | Filtering a concatenation filters each part in place, so the chats left keep their relative order |
| ChatUpdates.RemoveAbsent | src/hooks/useChat.ts:79 | An id no chat carries removes nothing: the list is returned as it is |
| ChatUpdates.RemoveAt | src/hooks/useChat.ts:79 | With distinct ids, removing the id of chat `k` gives exactly `chats[..k] + chats[k+1..]` |
| ChatUpdates.RemoveKeepsDistinct | src/hooks/useChat.ts:79 | The filter never introduces a repeated id |
| ChatUpdates.LastAfterRemove | src/hooks/useChat.ts:80-82 | With distinct ids and at least two chats, the last chat left is the old last one, or the one before it when the last was removed |
| ChatUpdates.DistinctOccurrences | src/hooks/useChat.ts:46-56 | With distinct ids, an id matches one chat if present and none otherwise |
| ChatUpdates.AppendCounts | src/hooks/useChat.ts:46-56 | Each append adds exactly one message per chat carrying the id |
| ChatUpdates.RemovePresent | src/hooks/useChat.ts:78-84 | Removal keeps ids distinct. It shortens the list by one when the id is present and leaves the list unchanged otherwise |
| UseChat.Greeting | src/hooks/useChat.ts:5-10 | The greeting is an assistant message with the fixed text and the shared id "1" |
| UseChat.FreshChat | src/hooks/useChat.ts:14-19 | A new chat is named "New Chat" and holds exactly the greeting |
| UseChat.ReplyText | src/hooks/useChat.ts:62-64 | The reply always has the fixed opening and closing. When files is defined it names the files joined by ", ", even for an empty list |
| UseChat.UserMessage | src/hooks/useChat.ts:38-44 | The user message carries the content, the file names, and the clock reading as its decimal id |
| UseChat.ReplyMessage | src/hooks/useChat.ts:60-67 | The reply is an assistant message with the reply text and the id of the clock reading plus one |
| UseChat.CurrentMessages | src/hooks/useChat.ts:23-24 | The visible messages are those of the current chat, or none when no chat has the current id |
| UseChat.RemovePresentNonEmpty | src/hooks/useChat.ts:80-82 | With more than one chat and distinct ids, at least one chat remains after deletion, so `remainingChats[length - 1]` exists |
| UseChat.CurrentAfterDelete | src/hooks/useChat.ts:80-83 | A changed current id belongs to a chat that survives the deletion and is never the deleted id |
| UseChat.DeleteMovesCurrent | src/hooks/useChat.ts:78-84 | Deleting another chat, or the only chat, keeps the current id (even when it is now dangling). Deleting the current chat among several selects the old last chat, or the one before it when the deleted chat was last |
| UseChat.UseChatState.constructor | src/hooks/useChat.ts:12-21 | Starts with one "New Chat" holding the greeting, that chat current, not typing and history hidden |
| UseChat.UseChatState.NewChat | src/hooks/useChat.ts:26-35 | Appends exactly one fresh chat at the end, makes it current and shows only the greeting; existing chats are unchanged |
| UseChat.UseChatState.SendMessage | src/hooks/useChat.ts:37-58 | Appends the user message to the current chat only, sets typing, and schedules one reply for the chat current now |
| UseChat.UseChatState.FireReply | src/hooks/useChat.ts:59-75 | The timer appends one reply to the chat that was current at send time and clears typing |
| UseChat.UseChatState.DeleteChat | src/hooks/useChat.ts:78-84 | Removes the chat and moves the current id as `DeleteMovesCurrent` describes, keeping ids distinct |
| UseChat.UseChatState.SelectChat | src/hooks/useChat.ts:92 | `setCurrentChatId` changes the current id only |
| UseChat.UseChatState.SetShowHistory | src/hooks/useChat.ts:93 | `setShowHistory` changes the history flag only |
| UseChat.SendAddsOneMessage | src/hooks/useChat.ts:46-56 | Sending adds exactly one message over all chats. It is the last message of the current chat, after the previous ones |
| UseChatMessages.UseChatMessagesState.constructor | src/hooks/useChatMessages.ts:21 | Not typing initially |
| UseChatMessages.UseChatMessagesState.HandleMessage | src/hooks/useChatMessages.ts:23-97 | The result follows the offline, success and failure branches. The LLM is queried with the content only, and never when offline. Typing is false on return whenever it was set |
| UseChatMessages.HandleMessageOutcome | src/hooks/useChatMessages.ts:39-96 | Ids are kept and other chats are unchanged. The current chat gains the user message (renamed only if it had one message), then the offline text or the answer's text and sources. An error is reported exactly on an online failure, with the fixed text |
| UseChatMessages.MessageTotals | src/hooks/useChatMessages.ts:39-93 | Two messages are added in the offline and success branches and one on failure |
| ChatInput.MaySend | src/components/ChatInput.tsx:16 | A disabled input never sends; a blank text with no files never sends; otherwise, with text or files, it sends |
| ChatInput.ChatInputState.constructor | src/components/ChatInput.tsx:10-11 | Starts with an empty message and no files |
| ChatInput.ChatInputState.SetMessage | src/components/ChatInput.tsx:10 | Replaces the text and keeps the files |
| ChatInput.ChatInputState.HandleSubmit | src/components/ChatInput.tsx:14-24 | Sends exactly when the text is not blank or files are attached, and the input is not disabled. Sending passes the untrimmed text and files and then clears both; otherwise nothing changes |
| ChatInput.ChatInputState.HandleKeyDown | src/components/ChatInput.tsx:26-31 | Only Enter without Shift submits, under the same guard |
| ChatInput.ChatInputState.HandleFileChange | src/components/ChatInput.tsx:33-37 | A selection replaces the files; no selection keeps them |
| Notifications.Without | src/components/Notification/NotificationContext.tsx:19 | The filter keeps exactly the notifications with another id |
| Notifications.WithoutFirst | src/components/Notification/NotificationContext.tsx:18-20 | With distinct ids, expiring the oldest id drops exactly the head |
| Notifications.NoMatchKept | src/components/Notification/NotificationContext.tsx:19 | Filtering an absent id keeps the list |
| Notifications.NotificationProvider.constructor | src/components/Notification/NotificationContext.tsx:13 | No notifications and no timers |
| Notifications.NotificationProvider.Show | src/components/Notification/NotificationContext.tsx:15-21 | Appends the notification with a fresh id and starts its timer. Every shown notification is on screen or expired |
| Notifications.NotificationProvider.Expire | src/components/Notification/NotificationContext.tsx:18-20 | The earliest timer removes exactly its own notification, which is the oldest one |
| Notifications.UseNotification | src/components/Notification/NotificationContext.tsx:31-37 | Outside a provider the hook throws its fixed message; inside it returns the context |
| ApiTypes.BaseUrlFromEnv | src/services/api/config.ts:4 | An unset or empty `VITE_API_URL` falls back to `http://localhost:8000` |
| ApiTypes.DefaultConfig | src/services/api/config.ts:3-9 | Three retries one second apart, with the base URL from the environment |
| ApiTypes.BodyOf | src/services/api/client.ts:47 | A body is sent only for truthy data and is the data itself. A form is sent as the empty object |
| ApiTypes.ApiErrorFrom | src/services/api/client.ts:25-34 | A non-OK response becomes an `APIError` carrying the status and the parsed body. Its message is `String(detail)` for a truthy `detail` (the text itself for a string), or "Request failed" when the body is missing, unparseable or has no truthy detail |
| ApiTypes.DetailMessages | src/services/api/client.ts:29-31 | A string `detail` is the message; a `detail` list of two objects gives "[object Object],[object Object]" |
| ApiTypes.FetchesAppend | src/services/api/client.ts:40-69 | Fetch counts add up over concatenated traces |
| ApiClient.Classify | src/services/api/client.ts:25-54 | A non-OK status is an `APIError` that stops retrying. A rejected fetch and an unparseable OK body are retryable failures. An OK parsed body resolves |
| ApiClient.FailureMessage | src/services/api/client.ts:63-65 | The `NetworkError` keeps an `Error`'s message and otherwise says "Failed to connect to API" |
| ApiClient.Run | src/services/api/client.ts:40-69 | Every run fetches at least once, first and last with the same request (no trailing delay); a first attempt that resolves returns its body |
| ApiClient.Attempts | src/services/api/client.ts:40-69 | Between 1 and budget + 1 attempts are made |
| ApiClient.ScheduleShape | src/services/api/client.ts:56-59 | n attempts give 2n - 1 events: fetches of the same request at even positions and one delay between consecutive ones |
| ApiClient.RunFollowsSchedule | src/services/api/client.ts:40-69 | The trace of a run is the schedule of its attempts. There is no delay before the first attempt or after the last |
| ApiClient.SucceedsOnAttempt | src/services/api/client.ts:40-69 | If the first k - 1 attempts fail at the transport level and attempt k resolves, the request resolves with that body after exactly k fetches |
| ApiClient.RejectedOnAttempt | src/services/api/client.ts:51-54 | A non-OK response at attempt k throws its `APIError` at once, whatever budget remains |
| ApiClient.ExhaustsBudget | src/services/api/client.ts:56-66 | When every allowed attempt fails, a `NetworkError` with the last failure's message follows budget + 1 fetches |
| ApiClient.FailureKinds | src/services/api/client.ts:51-66 | A failed request throws only an `APIError` or a `NetworkError` |
| ApiClient.RequestFetches | src/services/api/client.ts:39-48 | Every attempt fetches the same URL, method and body, and at most budget + 1 times |
| ApiClient.RequestTarget | src/services/api/client.ts:39-48 | The URL resolves the endpoint against the base. The method is passed through, the JSON content type is always set, and `isFormData` is ignored |
| ApiClient.RetriesFor | src/services/api/client.ts:69 | `retries ?? maxRetries`: an explicit value, even 0, wins |
| ApiClient.APIClient.constructor | src/services/api/client.ts:10-12 | The config is the given one or the default |
| ApiClient.APIClient.Request | src/services/api/client.ts:38-70 | The recursive attempt loop produces exactly the specified run over the network |
| ApiClient.ClientSlot.GetInstance | src/services/api/client.ts:14-19 | The first call creates the client from its config; later calls return the same object and ignore their config |
| ApiClient.GetInstanceTwice | src/services/api/client.ts:14-19 | Two calls return one object, configured by the first call |
| LegacyApiClient.LegacyAPIClient.constructor | src/services/apiClient.ts:14-20 | Base URL from the environment with the local fallback; three retries one second apart |
| LegacyApiClient.LegacyAPIClient.Target | src/services/apiClient.ts:62-68 | The URL is base + endpoint by concatenation, the content type is JSON, and the body rule is the same as the newer client's |
| LegacyApiClient.LegacyAPIClient.Request | src/services/apiClient.ts:55-87 | Recursing with `retries - 1` gives the same retry discipline: at most retries + 1 fetches, immediate `APIError`, and a `NetworkError` at the end |
| LegacyApiClient.LegacyAPIClient.CheckHealth | src/services/apiClient.ts:33-40 | One fetch of `/health`; the result is `response.ok`, and false when fetch throws |
| LegacyApiClient.SameRetryDiscipline | src/services/apiClient.ts:55-87 | With the same retry policy, the two clients reach the same result for the same network |
| LegacyApiClient.SameResultAnyTarget | src/services/apiClient.ts:55-87 | The result depends on the network and the budget, not on what is fetched |
| Health.Verdict | src/services/api/health.ts:7-12 | Healthy exactly when the request resolves with an object whose `status` is the string "ok"; any thrown error is unhealthy |
| Health.CheckAPIHealth | src/services/api/health.ts:6-13 | Never throws, and returns the verdict on the shared client's run |
| Health.ProbeTarget | src/services/api/health.ts:7 | Because of the positional call, every probe is a fetch of `new URL("undefined", base)` without method or body, up to maxRetries + 1 times |
| Health.UnreachableIsUnhealthy | src/services/api/health.ts:9-12 | When every allowed attempt fails, the check reports false |
| ModelCatalog.Lookup | src/config/models.ts:3-40 | Lookup finds a catalog entry exactly for catalog ids |
| ModelCatalog.CatalogDistinct | src/config/models.ts:3-40 | Six entries with pairwise distinct ids |
| ModelCatalog.CatalogNotLocal | src/config/models.ts:3-40 | No entry sets `isLocal` |
| ModelCatalog.OllamaExactlyPrefixed | src/config/models.ts:22-39 | The provider is Ollama exactly for ids starting with "ollama/" |
| ModelCatalog.CloudProviders | src/config/models.ts:4-21 | The GPT models are OpenAI's and claude-2 is Anthropic's |
| ModelManager.ModelManagerService.constructor | src/services/model/modelManager.ts:11-13 | Holds an Ollama provider with the default URL |
| ModelManager.ModelManagerService.GetModelConfig | src/services/model/modelManager.ts:22-24 | Finds the catalog entry for the id, if any |
| ModelManager.ModelManagerService.CheckModelAvailability | src/services/model/modelManager.ts:26-41 | An unknown model is unhealthy with "Invalid model". A non-local model is healthy without any fetch. A local model is as healthy as the Ollama probe |
| ModelManager.ModelManagerService.ValidateModel | src/services/model/modelManager.ts:43-48 | Throws "Invalid model: id" exactly for ids outside the catalog |
| ModelManager.ModelManagerService.RequiresApiKey | src/services/model/modelManager.ts:50-53 | A key is required exactly for catalog models not served by Ollama |
| ModelManager.AvailabilityNeverProbes | src/services/model/modelManager.ts:35 | With the shipped catalog, no model takes the Ollama branch |
| ModelManager.KeyNeededForCloudModels | src/services/model/modelManager.ts:50-53 | The three cloud models need a key and the three Ollama models do not |
| OllamaClient.HealthFrom | src/services/model/providers/ollama.ts:12-26 | Healthy exactly for an OK response, and then without a message. A non-OK response says the service is unavailable; a thrown fetch says it cannot connect |
| OllamaClient.OllamaProvider.constructor | src/services/model/providers/ollama.ts:8-10 | The base URL defaults to `http://localhost:11434` |
| OllamaClient.OllamaProvider.CheckHealth | src/services/model/providers/ollama.ts:12-26 | One fetch of `/api/health` with the mapping above |
| OllamaClient.GetModelName | src/services/model/providers/ollama.ts:28-30 | An id starting with "ollama/" loses that prefix; an id without it anywhere is unchanged; any id containing it loses exactly its length |
| OllamaClient.GetModelNameStripsOnce | src/services/model/providers/ollama.ts:28-30 | One leading "ollama/" is removed, a second one is kept, and a name without it is unchanged |
| ModelService.IsLocalModel | src/services/model/modelService.ts:22-25 | Local exactly when the catalog entry sets `isLocal` to true |
| ModelService.NoLocalModels | src/services/model/modelService.ts:22-25 | With the shipped catalog no model is local |
| ModelService.QueryFormIsChatRequest | src/services/model/modelService.ts:54-65 | The form is `buildChatRequest`'s, with the stored key only for a non-local model and a non-empty key |
| ModelService.ChatOptions | src/services/model/modelService.ts:67-72 | A POST of the form to `/api/chat`, flagged as a form, with the default retries |
| ModelService.ModelServiceInstance.constructor | src/services/model/modelService.ts:11-13 | Uses the shared client and the shipped catalog |
| ModelService.ModelServiceInstance.CheckOllamaHealth | src/services/model/modelService.ts:27-34 | One probe of Ollama; the result is `response.ok`, and false when fetch throws |
| ModelService.ModelServiceInstance.Query | src/services/model/modelService.ts:36-79 | Follows the guard sequence: API health, then Ollama health for local models, then the chat request |
| ModelService.QueryOutcome | src/services/model/modelService.ts:36-79 | An unhealthy API fails with the fixed message after the probe alone. Otherwise the answer is the client's answer to the non-local form sent right after the probe, and every later fetch is a POST to `/api/chat` whose body is `{}` |
| ModelService.HealthyQuery | src/services/model/modelService.ts:36-79 | With the shipped catalog and a healthy API, `query` is the probe followed by exactly one client request with the non-local form |
| ModelService.QueryFetchesChat | src/services/model/modelService.ts:67-77 | After a healthy probe every fetch of `query` is the chat POST with body `{}` |
| ModelService.ChatFetches | src/services/model/modelService.ts:67-77 | Whatever the form, every fetch of the chat request is the same POST to `/api/chat` with body `{}` |
| FormData.Form.Append | src/services/api/request/formDataBuilder.ts:12 | `append` adds one entry at the end |
| FormData.FormDataBuilder.AddField | src/services/api/request/formDataBuilder.ts:10-16 | A defined value is appended and an undefined one skipped; the builder itself is returned |
| FormData.FormDataBuilder.Build | src/services/api/request/formDataBuilder.ts:18-20 | Returns the builder's own form |
| FormData.ChatFields | src/services/api/request/chatRequest.ts:4-10 | Fields in the order question, model, then apiKey only when given |
| FormData.BuildChatRequest | src/services/api/request/chatRequest.ts:4-10 | A fresh form holding exactly those fields |
| LocalStorage.Storage.GetItem | src/hooks/useLLM.ts:26-29 | Reads the stored value, or nothing when the key is absent |
| LocalStorage.Storage.SetItem | src/hooks/useLLM.ts:26-29 | Stores the value under the key and nothing else changes |
| LlmApi.ChatOptions | src/services/api/llm.ts:17-22 | A POST to `/api/chat` of the JSON object with question and model, with default retries |
| LlmApi.QueryLLM | src/services/api/llm.ts:7-23 | Follows the health guard and then the request |
| LlmApi.QueryLLMOutcome | src/services/api/llm.ts:7-23 | An unhealthy API fails with the `LLMError` after the probe alone. Otherwise the client's outcome is returned unchanged, and every later fetch posts exactly the question and model |
| UseModelSelection.AvailabilityNotices | src/hooks/useModelSelection.ts:14-31 | A warning is shown exactly for an unhealthy result with a non-empty message |
| UseModelSelection.TextOf | src/hooks/useModelSelection.ts:55-64 | Errors are rewrapped as plain errors with their message. Reading `text` of a null response fails, and otherwise yields the field |
| UseModelSelection.UseModelSelectionState.constructor | src/hooks/useModelSelection.ts:9 | Starts on gpt-3.5-turbo |
| UseModelSelection.UseModelSelectionState.SwitchModel | src/hooks/useModelSelection.ts:33-53 | An unknown id keeps the model and shows the validation error. A known one is selected and announced by name |
| UseModelSelection.UseModelSelectionState.CheckAvailability | src/hooks/useModelSelection.ts:14-31 | An unknown model warns "Invalid model" without fetching. A cloud model is silent without fetching. A local model makes exactly one fetch, of the Ollama `/api/health` URL, and its notices follow the probe |
| UseModelSelection.UseModelSelectionState.QueryModel | src/hooks/useModelSelection.ts:55-64 | The service's outcome for the current model and stored key, rewrapped |
| UseLLM.ErrorNotice | src/hooks/useLLM.ts:38-52 | An `APIError` is shown as "API Error: " and its message. A `NetworkError` gets the connection notice. Anything else gets the generic notice |
| UseLLM.UseLLMState.constructor | src/hooks/useLLM.ts:9 | Starts on ollama/llama2 |
| UseLLM.UseLLMState.SwitchModel | src/hooks/useLLM.ts:21-24 | Selects the given model without validation |
| UseLLM.UseLLMState.SetApiKey | src/hooks/useLLM.ts:26-29 | Stores the key under `llm_api_key` |
| UseLLM.UseLLMState.CheckAPIAvailability | src/hooks/useLLM.ts:12-19 | The availability flag is the health check's verdict |
| UseLLM.UseLLMState.HandleQuery | src/hooks/useLLM.ts:31-53 | Success shows nothing. A failure shows exactly one error notice for that error |
| UseLLM.QueryNotices | src/hooks/useLLM.ts:31-53 | An unhealthy API gives the generic notice. A healthy API whose every chat attempt fails gives the connection notice |
| UseAPIStatus.ApplyCheck | src/hooks/useAPIStatus.ts:10-26 | Offline unless the check returned true. The warning is shown exactly when the check returned false |
| UseAPIStatus.UseAPIStatusState.constructor | src/hooks/useAPIStatus.ts:7 | Starts offline and not polling |
| UseAPIStatus.UseAPIStatusState.CheckStatus | src/hooks/useAPIStatus.ts:10-26 | The offline flag and notices follow the health verdict |
| UseAPIStatus.UseAPIStatusState.Mount | src/hooks/useAPIStatus.ts:28-36 | Checks once and starts polling |
| UseAPIStatus.UseAPIStatusState.Tick | src/hooks/useAPIStatus.ts:33 | Each interval re-checks while polling |
| UseAPIStatus.UseAPIStatusState.Unmount | src/hooks/useAPIStatus.ts:35 | Stops polling and keeps the flag |
| LlmService.LLMServiceInstance.constructor | src/lib/llm.ts:8-9 | Starts on gpt-3.5-turbo with an empty key |
| LlmService.LLMServiceInstance.SetModel | src/lib/llm.ts:23-25 | Changes only the model |
| LlmService.LLMServiceInstance.SetApiKey | src/lib/llm.ts:27-29 | Changes only the key |
| LlmService.LLMServiceInstance.GetModelInstance | src/lib/llm.ts:31-56 | An empty key throws "API key is required". Otherwise claude-2 gets the Anthropic model, gpt-4 the OpenAI gpt-4 model, and every other id the OpenAI gpt-3.5-turbo model, all at temperature 0.7 with the key |
| LlmService.LLMServiceInstance.Query | src/lib/llm.ts:58-74 | An empty key fails before any retrieval. Otherwise the prompt holds the retrieved context and the question |
| LlmService.PromptShape | src/lib/llm.ts:62-68 | With no documents the context is empty; with one it is that document's text, placed between "Context: " and the question |
| LlmService.Contents | src/lib/llm.ts:62-63 | One text per document, in the order of the search results |
| LlmService.ContextAppend | src/lib/llm.ts:62-64 | Each further document adds a blank line and its text at the end, so every context is the texts in order separated by blank lines |
| PyManager.ConfigFor | api/models/manager.py:17-22 | Temperature 0.7, no audio, and vision only for gpt-4-vision-preview |
| PyManager.GetProvider | api/models/manager.py:15-31 | The prefix "ollama/" wins, then "gpt-", then exactly claude-2. Anything else raises "Unsupported model" |
| PyManager.CreateMessages | api/models/manager.py:38-49 | The system prompt comes first and the question last. A context message joining the chunks with blank lines sits between them only for a non-empty context |
| PyManager.CatalogNamesSupported | api/models/manager.py:15-31 | Every client catalog name has a provider |
| PyFileUtils.GetFileInfo | api/utils/file_utils.py:7-30 | The extension is the lower-cased `splitext` extension; the MIME type is its table entry, if any |
| PyFileUtils.IsSupportedFileType | api/utils/file_utils.py:32-38 | Supported exactly when the MIME type is present and non-empty |
| PyFileUtils.SupportedIffMapped | api/utils/file_utils.py:12-38 | Supported exactly when the lower-cased extension is in the table |
| PyFileUtils.MimeTableKeys | api/utils/file_utils.py:15-27 | The table covers exactly the eleven listed extensions |
| PyFileUtils.FileInfoIgnoresCase | api/utils/file_utils.py:12 | File names that differ only in letter case get the same information |
| PyFileUtils.NoDotUnsupported | api/utils/file_utils.py:12-38 | A name without a dot has no extension and is unsupported |
| PyFileUtils.DotFileUnsupported | api/utils/file_utils.py:12-38 | A hidden file such as ".pdf" has no extension and is unsupported |
| PyDocumentLoaders.GetMimeType | api/models/document_loaders.py:17-33 | A truthy guess wins; otherwise the fallback table entry for the lower-cased extension, if any |
| PyDocumentLoaders.CreateLoader | api/models/document_loaders.py:35-67 | One clause per result: no loader without a MIME type; PDF when its test holds; Word when PDF's does not; text when neither earlier test does; image after those three; no loader when no test holds |
| PyDocumentLoaders.FallbackAlwaysLoads | api/models/document_loaders.py:17-67 | A file whose extension is in the fallback table always gets a loader |
| PyDocumentProcessor.GetLoader | api/models/document_processor.py:33-45 | Dispatch by MIME type: text/ first, then PDF, DOCX, image/, otherwise none |
| PyDocumentProcessor.MswordHasNoLoader | api/models/document_processor.py:33-45 | `application/msword` has no loader here, although `create_loader` gives it the Word loader |
| PyDocumentProcessor.LoadAndSplit | api/models/document_processor.py:47-54 | The split documents of a load, or none when loading fails |
| PyDocumentProcessor.CollectAppend | api/models/document_processor.py:20-31 | Collection distributes over concatenation of the file list, in order |
| PyDocumentProcessor.UnloadableFilesSkipped | api/models/document_processor.py:20-31 | Files without a loader or whose load fails contribute nothing |
| PyDocumentProcessor.DocumentProcessor.constructor | api/models/document_processor.py:16-18 | Keeps the key and starts without a vector store |
| PyDocumentProcessor.DocumentProcessor.ProcessFiles | api/models/document_processor.py:20-31 | The loop accumulates every file's documents in order. The store is rebuilt only when some were found |
| PyDocumentProcessor.DocumentProcessor.GetRelevantContext | api/models/document_processor.py:56-59 | No store gives no context; otherwise the search result |
| PyOllama.ResponseField | api/models/providers/ollama.py:35-36 | `result["response"]`, a `KeyError` when the field is missing, and a `TypeError` for a non-object |
| PyOllama.Generate | api/models/providers/ollama.py:13-42 | An empty message list raises before sending. Otherwise the last message is posted unstreamed. Transport errors become 503, a non-200 status is reported with the response text, and 200 yields the response field |
| PyOllama.OllamaProvider.constructor | api/models/providers/ollama.py:10-11 | The model name has every "ollama/" removed |
| PyOllama.OllamaProvider.GenerateResponse | api/models/providers/ollama.py:13-42 | Follows `Generate`; the files are ignored |
| PyOllama.LegacyOllamaProvider.constructor | api/models/ollama_provider.py:10-11 | Built from a model config; the same name stripping |
| PyOllama.LegacyOllamaProvider.GenerateResponse | api/models/ollama_provider.py:13-38 | Follows `Generate` |
| PyOllama.ModelNameStripsAll | api/models/providers/ollama.py:11 | Leading "ollama/" prefixes are all removed |
| PyOllama.PlainNameKept | api/models/providers/ollama.py:11 | A name without "ollama/" is unchanged |
| PyOllama.NameMappingsDiffer | api/models/providers/ollama.py:11 | For "ollama/ollama/x" the client keeps "ollama/x" while the backend sends "x" |
| Strings.IndexOf | src/services/model/providers/ollama.ts:29 | The first occurrence: it occurs there, and nowhere earlier |
| Strings.ReplaceFirstOfPrefixed | src/services/model/providers/ollama.ts:29 | Replacing a leading pattern with "" leaves exactly the rest |
| Strings.ReplaceAllOfPrefixed | api/models/providers/ollama.py:11 | Python's replace keeps scanning after a leading occurrence |
| Strings.ReplaceWithoutOccurrence | api/models/providers/ollama.py:11 | Without an occurrence both replacements are the identity |
| Strings.JoinAppend | src/lib/llm.ts:64 | Joining one more part appends the separator and that part |
| Strings.SplitExt | api/utils/file_utils.py:12 | The extension is empty or a suffix starting with its only dot, without a slash |
| Strings.LowerSplitExtIgnoresCase | api/utils/file_utils.py:12 | Case changes do not change the lower-cased extension |

## Left out

- Rendering: the components' markup, styling and the `NotificationContainer` display are not modelled.
- Logging: `logger` calls and Python logging have no effect on results and are left out.
- Clocks, `generateChatId`, `generateUniqueId`, `Date.now()` and `new Date()` are parameters, and freshness is a precondition where the code relies on it.
- Timer scheduling is represented by explicit fire, expire and tick methods. React batching and render timing are not modelled.
- `new URL(reference, base)` is kept as a pair; URL resolution and its possible exception are not computed.
- JSON numbers are integers; floating point is not modelled.
- Strings are sequences of code points, not UTF-16 units. Python's `str.lower` is modelled on ASCII letters only.
- `src/utils/errors.ts` is not part of this model. `APIError`, `NetworkError` and `LLMError` are taken to be `Error` subclasses that keep their message.
- ApiClient.ClientSlot.GetInstance: the static singleton is an explicit slot object. The `getInstance` singletons of the legacy client, `ModelManager`, `ModelService` and `LLMService` are plain construction.
- ModelService.ModelServiceInstance.constructor: the catalog is a field initialised to the shipped catalog rather than a module constant.
- UseModelSelection.UseModelSelectionState.QueryModel: a thrown non-`Error` value, for which the code says "Failed to query model", cannot arise in the model, so that branch is absent.
- LlmService.LLMServiceInstance.Query: the LangChain model call, the embeddings and the vector store search are parameters; the OpenAI/Anthropic SDKs are not modelled.
- PyDocumentProcessor: LangChain loaders, the text splitter, the embeddings and FAISS are parameters; the `k` of the similarity search is not modelled.
- PyDocumentLoaders: `mimetypes.guess_type` is a parameter; exceptions raised while constructing a loader are not modelled.
- PyManager.ConfigFor: the temperature 0.7 is stated in tenths.
- PyFileUtils.MimeTableKeys: the table's eleven entries are stated as the exact key set, not as a count.
- The OpenAI and Anthropic Python providers, the FastAPI routes and the auth server are outside this model.
