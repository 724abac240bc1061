# TryQuest local-AI and key-management core, modelled in Dafny

This project models the parts of TryQuest that run local inference and choose
AI keys and providers, and it proves properties of that model. The pieces are:

- the desktop app's Ollama supervisor (`OllamaManager`): the process handle
  that `start`, `stop` and the child's exit/error events write; the readiness
  poll loop; `getStatus`, `ensureRunning`, `listModels`, `deleteModel`; the
  per-OS outcomes of `autoInstall`; and the NDJSON decoder that streams
  `pullModel` progress;
- the preload bridge's error normaliser `handleError` and the routing of the
  `ollama.*` bridge methods;
- the server's provider detection and key choice with the Gemini fallback
  (`getAIModel`);
- the per-user API-key table and its get / update-or-insert / delete routes;
- the choice of Resend account by daily quota, the Redis day counters and the
  send-then-count order of the two send functions;
- the image upload route (base64 extraction) and the storage library (S3
  client cache, extension, object key, public URL, data-URL fallback);
- the desktop AI settings (schema, load with defaults, write on every change)
  and the local model-name fallback chain.

Each source file is one module: `Ollama` and `PullDecoder` (ollama-manager.ts),
`Preload`, `AiModels`, `UserApiKeys`, `Email`, `Upload`, `Storage`, `Settings`
and `LocalLlm`. `Wrappers` holds `Option`, `Outcome` and `Result`. `Text`
holds the JavaScript string operations used by several modules: `startsWith`,
`includes`, `indexOf`, `split(c)[0]` and `split(c)[1]`, `trim()` emptiness,
ASCII case mapping and decimal rendering.

State that the source changes in place is a class. These are the manager's
`ollamaProcess` (`Ollama.OllamaManager`), the key table
(`UserApiKeys.UserApiKeyTable`), the Redis counters (`Email.CounterStore`),
the S3 client cache (`Storage.S3Storage`) and the settings store with its
`localStorage` (`Settings.SettingsStore`). The rest are datatypes and
functions.

The outside world appears only as arguments to the model:
- what `checkInstalled`, `getVersion` and `isRunning` answer, and the process
  `spawn` returns;
- the HTTP answers Ollama gives;
- the installer's output and exit code;
- `JSON.parse` and `JSON.stringify`, the shared `encrypt` and `decrypt`, and
  base64 encoding and decoding;
- whether each Resend send or Redis call fails, and today's date;
- the id `nanoid` draws and whether the S3 send fails.

Where the model needs a fact about one of these functions, such as
`decrypt(encrypt(k, s), s) == k` or `parse(stringify(j)) == j`, the lemma
that uses it takes the fact as a precondition.

## Model

| member | source | states |
|---|---|---|
| PullDecoder.DecodeStream | apps/desktop/electron/main/ollama-manager.ts:184-208 | The lines handed to the parser are the non-blank newline-terminated pieces of the concatenation of all chunks, in order. The events are those lines that parse, in order. The fragment dropped at the end is the text after the last newline, and it holds no newline. |
| PullDecoder.SplitLines | apps/desktop/electron/main/ollama-manager.ts:193 | `split('\n')` always gives at least one piece, so `pop()` always has a carry to take. |
| PullDecoder.LinesAndCarry | apps/desktop/electron/main/ollama-manager.ts:193-194 | The complete lines (`Complete`) and the popped carry (`Carry`) joined with '\n' give the buffer back. None of them holds a newline. A buffer without a newline is carried whole and hands over nothing. |
| PullDecoder.Events | apps/desktop/electron/main/ollama-manager.ts:198-205 | Each handed line yields at most one event. When every line parses, each yields exactly one. |
| PullDecoder.DeliverLines | apps/desktop/electron/main/ollama-manager.ts:196-207 | The inner loop skips whitespace-only lines, hands every other line to the parser and passes on exactly the lines that parse, in order. |
| PullDecoder.PullModel | apps/desktop/electron/main/ollama-manager.ts:162-216 | A failed fetch, a non-OK status ("Failed to pull model: " + status text) and a missing body ("No response body") each reject with no event. A body delivers the decoded events, then resolves, or rejects with the read error. |
| PullDecoder.ChunkingIrrelevant | apps/desktop/electron/main/ollama-manager.ts:187-208 | Two chunkings of the same text hand over the same lines and deliver the same events. |
| PullDecoder.CarryStep | apps/desktop/electron/main/ollama-manager.ts:192-194 | Appending a chunk to the carry-over and splitting gives the same complete lines and the same new carry as splitting the whole text read so far. |
| PullDecoder.SplitAppend | apps/desktop/electron/main/ollama-manager.ts:193 | `(a + b).split('\n')` is the pieces of `a` whose last piece is glued to the first piece of `b`, followed by the remaining pieces of `b`. |
| PullDecoder.JoinSplitLines | apps/desktop/electron/main/ollama-manager.ts:193 | Joining the pieces of a split with '\n' gives the original text back, so the split loses nothing. |
| PullDecoder.PiecesWithoutNewline | apps/desktop/electron/main/ollama-manager.ts:193-194 | No piece of a split, including the carry, contains '\n'. |
| PullDecoder.Handed | apps/desktop/electron/main/ollama-manager.ts:197 | No line handed to the parser is blank after trimming. |
| PullDecoder.EventsFromLines | apps/desktop/electron/main/ollama-manager.ts:196-206 | Every delivered event is the parse of some complete non-blank line. |
| PullDecoder.TerminatedLine | apps/desktop/electron/main/ollama-manager.ts:193-194 | A newline-free line followed by '\n' yields exactly that line and an empty carry. |
| PullDecoder.TwoTerminatedLines | apps/desktop/electron/main/ollama-manager.ts:193-197 | Two newline-terminated non-blank lines are handed over as exactly those two lines, with nothing carried. |
| PullDecoder.MidLineSplit | apps/desktop/electron/main/ollama-manager.ts:187-197 | Two progress lines whose second is cut across two chunks are handed over as the two lines, in order, with nothing left over. |
| Ollama.AwaitServer | apps/desktop/electron/main/ollama-manager.ts:98-107 | The loop makes between 1 and 20 polls. It reports ready exactly when one of the first 20 polls succeeds. On success it stops at the first live answer. On failure it made all 20 polls. |
| Ollama.OllamaManager.constructor | apps/desktop/electron/main/ollama-manager.ts:29-30 | A new manager holds no process and has spawned nothing, so no server is out of reach. |
| Ollama.OllamaManager.Start | apps/desktop/electron/main/ollama-manager.ts:69-110 | With a handle held, `start` returns at once without spawning. If Ollama is not installed, it rejects with "Ollama is not installed", spawns nothing and leaves the handle null. Otherwise it spawns the child and holds it, then makes 1 to 20 polls. It resolves iff a poll succeeds; otherwise it rejects with "Failed to start Ollama server" and keeps the handle. It can be called in any state, including one where a live server has escaped the handle, and it never lets a server escape. |
| Ollama.OllamaManager.Stop | apps/desktop/electron/main/ollama-manager.ts:112-121 | With no handle, `stop` changes nothing and signals nobody, in any state. Otherwise it sends SIGTERM once, to the held child, and clears the handle at once. It never lets a server escape. |
| Ollama.OllamaManager.ProcessEndedAsWritten | apps/desktop/electron/main/ollama-manager.ts:87-95 | An 'exit' or 'error' event of any child clears the handle and removes that child from the live set. |
| Ollama.OllamaManager.ProcessEnded | apps/desktop/electron/main/ollama-manager.ts:87-95 | Corrected handler: an event clears the handle only when it comes from the held child. It never lets a server escape. |
| Ollama.OllamaManager.EnsureRunning | apps/desktop/electron/main/ollama-manager.ts:240-245 | When Ollama already answers, `ensureRunning` leaves everything unchanged. Otherwise it has every outcome of `start`: the same handle, live and signalled sets, poll bounds and rejections. |
| Ollama.Ended | apps/desktop/electron/main/ollama-manager.ts:87-95 | The corrected handler removes the child from the live set. It clears the handle iff the handle is that child's. |
| Ollama.EndedAsWritten | apps/desktop/electron/main/ollama-manager.ts:87-95 | The handler as written always leaves no handle, and it removes only the ending child from the live set. |
| Ollama.EndedKeepsNoOrphan | apps/desktop/electron/main/ollama-manager.ts:87-95 | The corrected handler keeps the no-orphan invariant. |
| Ollama.AtMostOneUnsignalled | apps/desktop/electron/main/ollama-manager.ts:30 | Under the invariant, at most one live server, the held one, has not been sent SIGTERM. |
| Ollama.LateExitOrphansServer | apps/desktop/electron/main/ollama-manager.ts:87-95 | Take the state after start 0, stop, start 1. The late exit of child 0, handled as written, clears the handle while child 1 is live and unsignalled. The corrected handler keeps the handle on child 1. |
| Ollama.RestartThenLateExit | apps/desktop/electron/main/ollama-manager.ts:69-121 | The same sequence runs through the manager's own methods. After the late exit, `stop` signals nobody. The next `start` spawns child 2 and resolves, because child 1 answers the polls. When child 2 exits, the handle is cleared again. Child 1 stays live and is never signalled. |
| Ollama.GetStatus | apps/desktop/electron/main/ollama-manager.ts:123-140 | When Ollama is not installed, `getStatus` answers not installed and not running, with no version, after the single install probe. Otherwise it probes version and liveness and reports both. Running implies installed. |
| Ollama.ListModels | apps/desktop/electron/main/ollama-manager.ts:142-160 | A fetch error is rethrown. A non-OK status rejects with "Failed to list models: " + status text. A missing `models` field gives the empty list. |
| Ollama.DeleteModel | apps/desktop/electron/main/ollama-manager.ts:218-238 | `deleteModel` resolves iff the answer is OK. A non-OK status rejects with "Failed to delete model: " + status text. |
| Ollama.ScrapeOutput | apps/desktop/electron/main/ollama-manager.ts:261-287 | Installer output containing "Downloading" reports the downloading message. Only stdout reports the starting message. |
| Ollama.ScrapeAll | apps/desktop/electron/main/ollama-manager.ts:261-287 | A whole run reports at most one message per output chunk, and only the downloading, installing and starting messages. |
| Ollama.CodeText | apps/desktop/electron/main/ollama-manager.ts:318 | `${code}` is "null" exactly when there is no exit code. Otherwise it ends in a digit. |
| Ollama.AutoInstall | apps/desktop/electron/main/ollama-manager.ts:247-364 | Linux with exit code 0 resolves iff one of at most two `checkInstalled` calls succeeds; if both fail it rejects with the binary-not-found message. Another exit code rejects with "Installation failed with code <code>". A spawn error is rethrown. darwin and win32 always reject, with the manual-install message once the page opened. Any other OS rejects as unsupported. |
| Ollama.InstallResolvesOnlyWhenVerified | apps/desktop/electron/main/ollama-manager.ts:289-316 | A resolved install was a Linux install that exited with 0 and passed at least one check. |
| Preload.StripRemotePrefix | apps/desktop/electron/preload/index.ts:63 | A message without the remote-method prefix is unchanged. Otherwise the result is the message or a proper suffix of it. |
| Preload.StripsRemotePrefix | apps/desktop/electron/preload/index.ts:63 | `Error invoking remote method '<name>': ` with a non-empty, quote-free name is removed once, only at the start. |
| Preload.MalformedWrapperKept | apps/desktop/electron/preload/index.ts:63 | A wrapper the pattern does not match is left alone. That is a name with no closing quote, an empty name, or a quote not followed by `: `. |
| Preload.StripErrorWord | apps/desktop/electron/preload/index.ts:64 | A leading `error: `, in any letter case, loses exactly its seven characters. Any other message is kept. |
| Preload.StripsErrorWord | apps/desktop/electron/preload/index.ts:64 | Any seven-character word that lower-cases to `error: ` is removed and the rest is kept. |
| Preload.Capitalize | apps/desktop/electron/preload/index.ts:66 | The first character is upper-cased and the rest is unchanged. An empty message stays empty. |
| Preload.Normalize | apps/desktop/electron/preload/index.ts:63-66 | The normalised message is never longer than the original. |
| Preload.PlainMessageOnlyCapitalized | apps/desktop/electron/preload/index.ts:63-66 | A message with neither prefix differs from its normal form only in its first character, which is upper-cased. |
| Preload.RemoteErrorNormalized | apps/desktop/electron/preload/index.ts:63-66 | A wrapped remote error loses the wrapper and the `Error: ` word, and its first remaining character is upper-cased. |
| Preload.MainProcessMessageRestored | apps/desktop/electron/preload/index.ts:63-66 | The renderer gets back exactly the main-process message when it does not start with a lower-case letter. |
| Preload.HandleError | apps/desktop/electron/preload/index.ts:50-70 | A result passes through unchanged. An `Error` is rethrown as a `TypeError` with the normalised message. Any other thrown value is rethrown as it is. |
| Preload.Route | apps/desktop/electron/preload/index.ts:107-116 | Each `ollama` bridge method invokes channel `ollama.<method>`. Arguments are forwarded only by `pullModel` and `deleteModel`. |
| Preload.RoutesAreDistinct | apps/desktop/electron/preload/index.ts:107-116 | Two bridge methods share a channel only if they are the same method. |
| AiModels.DetectProvider | apps/api/src/lib/ai-models.ts:134-148 | The rules are tried in the order openai, anthropic, google, xai, and the first match wins. A name matching no rule maps to Google. Each direction of each case is stated. |
| AiModels.DetectGpt | apps/api/src/lib/ai-models.ts:135-137 | `gpt-4o` is OpenAI. |
| AiModels.DetectClaude | apps/api/src/lib/ai-models.ts:138-140 | `claude-3-opus` is Anthropic. |
| AiModels.DetectGemini | apps/api/src/lib/ai-models.ts:141-143 | `gemini-pro` is Google. |
| AiModels.DetectGrok | apps/api/src/lib/ai-models.ts:144-146 | `grok-2` is xAI. |
| AiModels.DetectFirstRuleWins | apps/api/src/lib/ai-models.ts:135-140 | `claude-via-openai` matches two rules and goes to the earlier one, OpenAI. |
| AiModels.DetectDefault | apps/api/src/lib/ai-models.ts:147 | `llama3` matches no rule and maps to Google. |
| AiModels.FallbackKey | apps/api/src/lib/ai-models.ts:69-71 | In the Gemini fallback the system key comes first, then the user's Google key, else none. |
| AiModels.GetAIModel | apps/api/src/lib/ai-models.ts:45-129 | The model uses the chosen provider and keeps the requested name, unless it became the Gemini 2.0 Flash fallback under the fallback key. A non-Google provider is used only with a key. |
| AiModels.Chosen | apps/api/src/lib/ai-models.ts:58 | The explicit provider wins; without one, the provider detected from the name is used. |
| AiModels.Or | apps/api/src/lib/ai-models.ts:62 | `a \|\| b` is `a` when `a` is a non-empty string, else `b`. The result is truthy iff one of the two is. |
| AiModels.UserKey | apps/api/src/lib/ai-models.ts:62 | `userKeys?.<provider>ApiKey` is missing without a row, and otherwise the row's field for that provider. |
| AiModels.KeyPriority | apps/api/src/lib/ai-models.ts:60-114 | For openai, anthropic and xai, the user's key wins, then the system key. With neither, the model becomes `gemini-2.0-flash` under the fallback key, whatever name was asked for. |
| AiModels.GoogleKeepsName | apps/api/src/lib/ai-models.ts:93-98 | The google branch keeps the requested name and tries the user's key before the system key. |
| AiModels.ExplicitProviderWins | apps/api/src/lib/ai-models.ts:58-129 | An explicit provider is used, with the requested name, whatever the name suggests. This holds for Google always, and for any other provider once the user or the server has a key for it. |
| AiModels.StoredUserKeys | apps/api/src/lib/ai-models.ts:23-40 | `getUserApiKeys` answers null exactly when the user has no row. |
| AiModels.SameKeysAsRoute | apps/api/src/lib/ai-models.ts:23-40 | This decrypts a row the same way the key route does, so both give the same key for each provider. |
| UserApiKeys.KeyRecord.With | apps/api/src/orpc/routers/user-api-keys.ts:50-63 | Setting one provider's field changes that field and no other. |
| UserApiKeys.DecryptRow | apps/api/src/orpc/routers/user-api-keys.ts:35-40 | Each non-empty stored field is decrypted. An empty or null field reads as null. |
| UserApiKeys.DecryptField | apps/api/src/orpc/routers/user-api-keys.ts:36-39 | A missing or empty stored field reads as null. Any other field is decrypted with the user's secret. |
| UserApiKeys.Lookup | apps/api/src/orpc/routers/user-api-keys.ts:15-41 | A user with no row gets all four fields null. Otherwise each field is the decryption of the stored one. |
| UserApiKeys.Patch | apps/api/src/orpc/routers/user-api-keys.ts:50-63 | The patch has an entry exactly for the fields present in the input. An empty string becomes null and anything else becomes its encryption. |
| UserApiKeys.EncryptField | apps/api/src/orpc/routers/user-api-keys.ts:53 | An empty input stores null. Any other input stores its encryption with the user's secret. |
| UserApiKeys.Patched | apps/api/src/orpc/routers/user-api-keys.ts:72-77 | The patched columns take their patch value and the others keep theirs. |
| UserApiKeys.Upserted | apps/api/src/orpc/routers/user-api-keys.ts:65-89 | Only the user's row is written. Exactly that row is added when it was missing, and every other row is unchanged. |
| UserApiKeys.UserApiKeyTable.constructor | apps/api/src/drizzle/schema/user-api-keys.ts:1-28 | The table starts empty. |
| UserApiKeys.UserApiKeyTable.GetUserApiKeys | apps/api/src/orpc/routers/user-api-keys.ts:15-41 | The route answers the lookup of the current table. |
| UserApiKeys.UserApiKeyTable.BuildPatch | apps/api/src/orpc/routers/user-api-keys.ts:50-63 | Filling the patch field by field gives the patch described above. |
| UserApiKeys.UserApiKeyTable.UpdateUserApiKeys | apps/api/src/orpc/routers/user-api-keys.ts:43-92 | The table becomes the upsert of the patch. It reports an insert exactly when the user had no row. `success` is always true. |
| UserApiKeys.UserApiKeyTable.DeleteUserApiKeys | apps/api/src/orpc/routers/user-api-keys.ts:94-104 | Exactly the user's row is removed and `success` is true. |
| UserApiKeys.UpdateThenGet | apps/api/src/orpc/routers/user-api-keys.ts:53 | After an update with a non-empty key, reading it back returns that key, given that decryption undoes encryption. |
| UserApiKeys.UpdateWithEmptyClears | apps/api/src/orpc/routers/user-api-keys.ts:53 | An empty string clears the field, so it reads back as null. |
| UserApiKeys.UpdateKeepsAbsentFields | apps/api/src/orpc/routers/user-api-keys.ts:52-89 | A field absent from the input keeps its stored value, or is null in a new row. |
| UserApiKeys.DeleteThenGet | apps/api/src/orpc/routers/user-api-keys.ts:97-99 | After a delete, a read gives all nulls. |
| Email.Count | apps/api/src/lib/email/index.ts:39-40 | A missing counter counts as 0. |
| Email.SelectClient | apps/api/src/lib/email/index.ts:14-67 | Only a configured client is returned. There is none exactly when the primary is unset and either the secondary is unset or the counters could not be read. The secondary client and address are chosen when the secondary is under 100 and the primary is unusable. Only then does the sender differ from the primary address. |
| Email.NoClientWithoutKeys | apps/api/src/lib/email/index.ts:24-27 | With neither key, the result is no client with the primary address, whatever the counters say. |
| Email.PrimaryFirst | apps/api/src/lib/email/index.ts:49-52 | A configured primary under 100 sends for the day is always chosen. |
| Email.BothAtLimit | apps/api/src/lib/email/index.ts:59-61 | With both at the limit, the primary client is used if configured, else the secondary, always with the primary address. |
| Email.ReadFailureUsesPrimary | apps/api/src/lib/email/index.ts:63-66 | A Redis read failure gives the primary client, possibly null, and the primary address. |
| Email.CounterKey | apps/api/src/lib/email/index.ts:30-31 | Counter keys start with `resend:daily:`. |
| Email.CounterIndex | apps/api/src/lib/email/index.ts:71 | A send is charged to counter "1" exactly when it comes from the primary address, and to "2" otherwise. |
| Email.CounterKeysDistinct | apps/api/src/lib/email/index.ts:29-31 | The two accounts' keys for a day differ, and a key determines its day. |
| Email.Incremented | apps/api/src/lib/email/index.ts:75 | `INCR` raises the key's value by one, from 0 when missing, and leaves every other key alone. |
| Email.FromHeader | apps/api/src/lib/email/index.ts:116 | The sender header is `TryQuest <address>`. |
| Email.CounterStore.constructor | apps/api/src/lib/email/index.ts:12 | The counters start empty. |
| Email.CounterStore.Snapshot | apps/api/src/lib/email/index.ts:33-40 | The read gives each of the day's two counters, or none when the key is absent, or the read failure. |
| Email.CounterStore.GetResendClient | apps/api/src/lib/email/index.ts:14-67 | The counters are consulted iff some key is configured, and the choice is the selection rule applied to them. |
| Email.CounterStore.IncrementEmailCount | apps/api/src/lib/email/index.ts:69-84 | The counter of `resend:daily:<i>:<day>` is raised, with i "1" iff the sender is the primary address. The expiry 86400 is set only when the new count is 1. Redis errors change nothing further and are swallowed. |
| Email.CounterStore.SendRawEmail | apps/api/src/lib/email/index.ts:91-151 | With no client the send rejects with "Resend email service is not configured". A Resend error is rethrown and counts nothing. A success is counted once, after the send, against its sender address, and the day's first count there gets the one-day expiry. Nothing else changes. |
| Email.CounterStore.SendEmail | apps/api/src/lib/email/index.ts:158-226 | With no client the send returns quietly. A Resend error becomes "Unknown error occurred while sending email" and counts nothing. A success is counted once, after the send, with the same expiry rule. Nothing else changes. |
| Email.CounterFollowsAddress | apps/api/src/lib/email/index.ts:54-71 | A secondary send under quota is charged to counter 2. A fallback send through the secondary account uses the primary address and is charged to counter 1. |
| Email.QuotaMovesToSecondary | apps/api/src/lib/email/index.ts:49-57 | Once the primary's count for the day reaches 100, a configured secondary with no sends that day is chosen. |
| Upload.ExtractBase64 | apps/api/src/orpc/routers/upload.ts:20-22 | An input without a comma is used whole. Otherwise the payload is the text between the first comma and the next one or the end. |
| Upload.ExtractBetweenCommas | apps/api/src/orpc/routers/upload.ts:20-21 | `head,field…` with comma-free head and field gives `field`. |
| Upload.ExtractFromDataUrl | apps/api/src/orpc/routers/upload.ts:20-22 | Extraction applied to `data:<ct>;base64,<b>`, the fallback's shape, gives `b` when ct and b are comma-free. |
| Upload.UploadImageToStorage | apps/api/src/orpc/routers/upload.ts:17-44 | An empty payload rejects with "Invalid base64 data" before any upload. Otherwise `uploadImage` gets the decoded payload, the input content type and the caller's id, and its URL or failure is passed on unchanged. The client cache is filled only by the first upload with credentials; every other call leaves it as it was. |
| Upload.FallbackEchoesDataUrl | apps/api/src/orpc/routers/upload.ts:20-38 | Without storage, uploading a data URL answers that same data URL, given that base64 re-encoding is exact. |
| Storage.IsStorageConfigured | apps/api/src/lib/storage.ts:79-87 | Storage is configured iff all five settings are non-empty. |
| Storage.Extension | apps/api/src/lib/storage.ts:51 | The extension is never empty and holds no '/'. |
| Storage.ExtensionOfContentType | apps/api/src/lib/storage.ts:51 | `type/sub` gives `sub`. A type with no subtype, or an empty one, gives `png`. |
| Storage.ObjectKey | apps/api/src/lib/storage.ts:52 | Object keys live under `chat-images/`. |
| Storage.ObjectKeysSeparateUsers | apps/api/src/lib/storage.ts:52 | Users with different slash-free ids never share an object key. |
| Storage.DataUrl | apps/api/src/lib/storage.ts:47 | The fallback is a `data:` URL. |
| Storage.UploadOutcome | apps/api/src/lib/storage.ts:40-74 | Unconfigured storage gives `data:<ct>;base64,<b64>` and sends nothing. Configured storage sends `chat-images/<user>/<id>.<ext>` to the bucket and answers `<public url>/<key>`, or "Failed to upload image" when the send fails. |
| Storage.S3Client.constructor | apps/api/src/lib/storage.ts:18-25 | A client records the endpoint and credentials it was built from. |
| Storage.S3Storage.constructor | apps/api/src/lib/storage.ts:9 | The cache starts empty. |
| Storage.S3Storage.GetS3Client | apps/api/src/lib/storage.ts:11-29 | Without endpoint, access key or secret the answer is null and the cache is untouched. Otherwise the first call builds and caches a fresh client and later calls return that same client. |
| Storage.S3Storage.UploadImage | apps/api/src/lib/storage.ts:40-74 | The upload does what `UploadOutcome` describes. The first upload with credentials caches a fresh client built from them. A client already cached stays. Without credentials the cache is untouched. |
| Storage.UploadedUrlShape | apps/api/src/lib/storage.ts:52-68 | A successful upload's URL starts with `<public url>/chat-images/<user>/` and ends with `.<ext>`. |
| Settings.ToJson | apps/desktop/src/lib/ai/settings-store.ts:44-46 | Written settings always follow the schema. |
| Settings.Validate | apps/desktop/src/lib/ai/settings-store.ts:4-9 | A value validates iff it follows the schema, that is, the provider and the profile are each one of the listed names and the two other fields are a string and a boolean. The settings agree with the value on all four fields. |
| Settings.ValidateToJson | apps/desktop/src/lib/ai/settings-store.ts:4-9 | Validating the JSON form of settings gives them back. |
| Settings.GetPersistedSettings | apps/desktop/src/lib/ai/settings-store.ts:20-38 | Stored text that parses and follows the schema is loaded. In every other case (nothing stored, empty, a read error, a parse error, a schema error) the defaults are loaded. |
| Settings.SettingsStore.constructor | apps/desktop/src/lib/ai/settings-store.ts:40-42 | The store starts from the persisted settings. |
| Settings.SettingsStore.SetState | apps/desktop/src/lib/ai/settings-store.ts:44-46 | Each change stores the stringified new state under `tryquest-ai-settings` and touches no other item. |
| Settings.ReloadAfterWrite | apps/desktop/src/lib/ai/settings-store.ts:20-46 | Reading back what the subscriber wrote gives the written state, given that parsing undoes stringifying. |
| Settings.FirstStartUsesDefaults | apps/desktop/src/lib/ai/settings-store.ts:22-24 | Nothing stored, or a failing read, gives the defaults: local-ollama, `qwen2.5-coder:7b-instruct-q4_K_M`, AI off, balanced. |
| Settings.UnknownProviderUsesDefaults | apps/desktop/src/lib/ai/settings-store.ts:26-31 | A stored object with an unknown provider gives the defaults. |
| LocalLlm.SelectModel | apps/desktop/src/lib/ai/local-llm.ts:14 | A non-empty argument wins. Failing that, the store's non-empty default is used, then `DEFAULT_MODEL`. The result is never empty. |
| LocalLlm.CreateLocalLLM | apps/desktop/src/lib/ai/local-llm.ts:7-17 | The model is served from `http://127.0.0.1:11434/v1` with key `ollama`, under the selected name. |
| LocalLlm.FreshInstallUsesDefault | apps/desktop/src/lib/ai/local-llm.ts:5-14 | `DEFAULT_MODEL` equals the settings default, so a fresh install selects it. |

## Left out

- Concurrency: two `start` or `ensureRunning` calls, or events arriving during the readiness polls, are not interleaved. Each operation runs to completion.
- Ollama.OllamaManager.Start: `requires child !in spawned` stands for `spawn` returning a new process object. The 500 ms sleeps and the 2-second poll timeout appear only as a poll count.
- `spawn` failing outright is not told apart from the child's 'error' event. Both are the event handler.
- Ollama.AutoInstall: the 2 s and 3 s waits and the order of progress messages relative to the close event are not modelled. Installer output is a list of whole chunks.
- The block after the OS switch in `autoInstall` (ollama-manager.ts:352-358) is left out because every branch before it returns or throws.
- Ollama.ScrapeOutput: it states which message a chunk gives only for "Downloading" and for the stream rule.
- The decoder works on text: `TextDecoder`'s handling of multi-byte characters split across chunks is not modelled. Chunks are already-decoded strings.
- PullDecoder.PullModel: an exception thrown by `onProgress` is not modelled. The source swallows it together with parse errors.
- Trimming is modelled for ASCII whitespace, NBSP and the BOM, not the other Unicode space characters `trim` removes. Case mapping is ASCII only.
- `handleError`'s development-mode debug log is not modelled.
- Preload.Normalize: the postcondition only bounds the length. The lemmas beside it state the exact results.
- Email: `Number.parseInt` is taken to give an integer. A stored value that parses to NaN, which the source compares as not below the limit, is not modelled.
- Email.EmailConfig: an unset `RESEND_FROM_EMAIL_2` is modelled as an address string, not as `undefined`.
- Email: the `consola` logging and the React templates of `sendEmail` are not modelled.
- Settings: arktype keeps undeclared keys of a stored object in the loaded state. The model's settings hold the four declared fields only.
- Settings: JSON numbers are integers in the model. No settings field is a number.
- UserApiKeys: the table holds at most one row per user. The source's delete would remove several, and its read takes the first.
- Encryption, JSON and base64 are abstract functions. Their round-trip facts are preconditions of the lemmas that need them.
- The S3 `PutObjectCommand` is returned as a value, not executed. The bucket's contents are not modelled.
- AI SDK model construction and the PostHog wrapper are left out. The model choice is represented by provider, model name and key.

## Findings

| source | as written | input that shows it | evidently intended | confidence | as-written member | corrected member |
|---|---|---|---|---|---|---|
| apps/desktop/electron/main/ollama-manager.ts:87-95 | The 'exit' and 'error' handlers of every spawned child set `ollamaProcess = null`, whichever child the event came from. | Call `start` (child 0), then `stop`, which sends SIGTERM and clears the handle at once, then `start` (child 1). Child 0's 'exit' then arrives and clears the handle to child 1 while child 1 is still running. From then on `stop` signals nobody and child 1 cannot be stopped. A later `start` spawns another `ollama serve`, which most likely cannot bind the port child 1 holds and exits, clearing the handle again. | Clear the handle only when the event comes from the child currently held. | medium, not executed | Ollama.LateExitOrphansServer, Ollama.RestartThenLateExit | Ollama.OllamaManager.ProcessEnded |
