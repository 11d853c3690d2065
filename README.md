# chatset core in Dafny

chatset is a chat front end on a Convex backend. Users sign in, store API keys for
five model providers, and chat with models from a fixed registry. This project
models four files of that backend:

- `models.ts`: the model registry. There are 23 models, each with its display
  label, its client (built with the key of its API), its maker, the API badge and
  an optional web-search tool.
- `convex/helpers.ts`:
  - `getTools`: the tool set the chat request attaches when web search is asked for.
  - `getRequiredApiKeyForModel`: the rule chain that picks which of the user's keys
    a model name needs.
  - `verifyAuth`: the session check.
  - `encryptApiKey`/`decryptApiKey`: the encryption of stored keys. The stored
    string is the base64 of 16 salt bytes, 12 IV bytes and the AES-GCM ciphertext.
- `convex/keys.ts`:
  - the internal `getApiKeys`, which decrypts every stored key and drops the ones
    that fail;
  - the masked previews shown in the settings page, in the fixed order openai,
    groq, anthropic, google, openrouter;
  - `saveApiKey` and `removeApiKey`.
- `convex/chats.ts`:
  - the sidebar listing. It reads the caller's 100 newest chats and groups them
    under "Today", "Yesterday" or a long date, in first-seen order.
  - `startChatWithFirstMessage`, which inserts a "New Chat" row and schedules the
    first reply, then the title generation.
  - The title update and the title generator's last step.

Project layout:

| file | models |
|---|---|
| `common.dfy` | `Option`, `Result`, bytes, and the errors the handlers throw |
| `js_string.dfy` | `startsWith`, `endsWith`, `includes` and `slice` with JavaScript's clamping of negative and out-of-range indices |
| `schema.dfy` | the records of `convex/schema.ts`. The five providers are both the optional fields of an `apiKeys` row and the API badges |
| `store.dfy` | the Convex context: a `Db` class with `sessions`, `users`, `apiKeys`, `chats`, and a `Scheduler` class with its queue |
| `models.dfy`, `models_facts.dfy` | the registry and the facts about it |
| `helpers.dfy` | `convex/helpers.ts` |
| `keys.dfy` | `convex/keys.ts` |
| `chats.dfy` | `convex/chats.ts` |

Imperative code stays imperative:

- The byte framing of `encryptApiKey` is a method over arrays (`Helpers.FrameBytes`).
- The key-decrypting handlers and the grouping loop are methods whose `ensures`
  tie them to specification functions.
- The mutations change the `Db` and `Scheduler` objects they are given.

## Model

| member | source | states |
|---|---|---|
| `Models.Lookup` | convex/helpers.ts:5-8 | `models[model]` finds a config exactly when some registry entry has that id, and the config is that entry's |
| `ModelsFacts.RegistryShape` | models.ts:73-237 | the registry has 23 entries with exactly the ids of the literal, in order, for any keys |
| `ModelsFacts.RegistryIdsDistinct` | models.ts:73-237 | no id occurs twice, so `models[id]` is unambiguous |
| `ModelsFacts.ClientsUseOwnKey` | models.ts:50-72 | every model's client is built with the key of its own API; every web-search tool uses the OpenAI client |
| `ModelsFacts.OpenRouterBadgeIffSuffix` | models.ts:189-236 | an entry has the OpenRouter badge exactly when its id ends in "-openrouter" |
| `ModelsFacts.WebSearchOnlyOnFive` | models.ts:74-123 | exactly gpt-5, gpt-5-mini, gpt-5-nano, gpt-4.1 and gpt-4.1-mini have a web-search tool, always named "web_search_preview" |
| `ModelsFacts.ProviderAndApiDiffer` | models.ts:168-186 | outside OpenRouter the maker's label and the API badge differ exactly for the Groq models, which are deepseek-r1 (DeepSeek) and the two Llama models (Meta) |
| `Helpers.KeyOrNull` | convex/helpers.ts:46 | `apiKeys.x \|\| null` yields a key exactly when the field is present and non-empty, and then yields that field |
| `Helpers.RequiredApiKeyForModel` | convex/helpers.ts:28-73 | a missing keys record gives null; any key returned is a non-empty value of the user's record; a name no rule matches gives null |
| `Helpers.RoutingRules` | convex/helpers.ts:41-72 | each provider is chosen exactly under its rule and the earlier rules' failure: OpenAI on gpt-/o3/o4-; Anthropic on claude- without "openrouter"; Google on gemini- without it; Groq, when none of those took the id, on "deepseek-r1" anywhere or "llama-" anywhere without "openrouter"; OpenRouter on "openrouter" without "deepseek-r1"; none otherwise |
| `Helpers.PrefixesExclusive` | convex/helpers.ts:41-57 | the claude-, gemini- and OpenAI prefixes exclude one another, so the first three rules never compete for an id |
| `Helpers.LlamaAnywhere` | convex/helpers.ts:60-65 | "llama-" is a substring test: "meta-llama-3" is routed to Groq |
| `Helpers.ClaudeBeforeLlama` | convex/helpers.ts:50-65 | the Anthropic rule is tried before the Groq one: "claude-llama-3" is routed to Anthropic |
| `Helpers.RequiredKeyIsRoutedField` | convex/helpers.ts:38-72 | with a record, the key returned is exactly the non-empty field of the routed provider |
| `Helpers.RoutingMatchesApi` | convex/helpers.ts:28-73 | for every registry model except the three OpenRouter ids starting gpt-/o4-, the routed provider is the model's own API |
| `Helpers.OpenRouterIdsRouteToOpenAI` | convex/helpers.ts:41-47 | gpt-4.1-openrouter, gpt-4.1-mini-openrouter and o4-mini-openrouter have the OpenRouter badge but are routed to the OpenAI key |
| `Helpers.OpenRouterOnlyUserIsRefused` | convex/helpers.ts:41-47 | with only an OpenRouter key, "gpt-4.1-openrouter" gets no key as written, and gets the OpenRouter key with the corrected rule order |
| `Helpers.RequiredApiKeyForModelCorrected` | convex/helpers.ts:28-73 | the same lookup with the "openrouter" test first; any key returned is a non-empty field of the record |
| `Helpers.CorrectedAgreesOffOpenRouter` | convex/helpers.ts:41-72 | the corrected rule sends every "openrouter" name to OpenRouter and agrees with the original on every other name |
| `Helpers.CorrectedRoutingMatchesApi` | models.ts:73-237 | under the corrected rule every one of the 23 models is routed to its own API |
| `Helpers.GetTools` | convex/helpers.ts:4-26 | tools come back exactly when the model is registered, webSearch is true and the model has a web-search tool; the tool map then has the one entry tool-name to tool, and the choice is `{type: "tool", toolName}` |
| `Helpers.GetToolsOnlyForWebSearchIds` | convex/helpers.ts:4-26 | with webSearch on, tools come back exactly for the five web-search ids, as "web_search_preview" with the OpenAI medium-context preview tool |
| `Helpers.LookupOutsideRegistry` | convex/helpers.ts:5-8 | a name that is not a registry id finds no config, so getTools returns nothing |
| `Helpers.VerifyAuth` | convex/helpers.ts:75-91 | "Unauthorized" exactly when the token has no session; otherwise the session's user, whether its user row exists, and a found row is that same user's |
| `Helpers.AuthUserId` | convex/keys.ts:74 | reading `auth.user._id` fails exactly when the user row is missing, and otherwise yields that user |
| `Helpers.AuthenticatedCaller` | convex/helpers.ts:75-91 | the two checks together succeed exactly when the token has a session whose user exists, and give the session's user |
| `Helpers.SplitFrame` | convex/helpers.ts:154-162 | `slice(0,16)`, `slice(16,28)`, `slice(28)` cover the input in order with the clamped lengths: a buffer shorter than 16 bytes is all salt, one of 16 to 28 bytes has an empty ciphertext, and past 28 bytes the ciphertext is everything after the 12-byte iv |
| `Helpers.FrameRoundTrip` | convex/helpers.ts:138-162 | splitting a framed 16-byte salt and 12-byte IV gives back salt, IV and ciphertext |
| `Helpers.CopyInto` | convex/helpers.ts:141-143 | `combined.set(src, offset)` writes src at offset and leaves every other byte as it was |
| `Helpers.FrameBytes` | convex/helpers.ts:138-143 | the combined array is salt, then IV, then ciphertext |
| `Helpers.Encrypted` | convex/helpers.ts:120-146 | an unset secret is an error; otherwise the result is the base64 of bytes that begin with salt and IV |
| `Helpers.EncryptApiKey` | convex/helpers.ts:120-146 | with the 16-byte salt and 12-byte IV the source draws, the array-building encryption yields the value `Encrypted` describes |
| `Helpers.DecryptApiKey` | convex/helpers.ts:148-173 | unset secret, then bad base64, then failed decryption are the errors in that order; with the secret set and valid base64, the result is `Ok` of the plaintext exactly when AES-GCM opens the ciphertext after the 16-byte salt and 12-byte IV, and "decryption failed" otherwise |
| `Helpers.DecryptAfterEncrypt` | convex/helpers.ts:120-173 | with sound primitives, decrypting an encrypted key gives the key back; an unset secret fails both |
| `Keys.DecryptStep` | convex/keys.ts:21-27 | a present field that decrypts is added as plaintext; a missing field or a failed decryption leaves the result unchanged |
| `Keys.DecryptedKeys` | convex/keys.ts:19-61 | a provider is in the result exactly when it was visited and its stored key decrypts, with its plaintext as value |
| `Keys.FailureIsolation` | convex/keys.ts:21-59 | whether and how one provider's key shows depends only on that provider's stored field |
| `Keys.ProviderOrderComplete` | convex/keys.ts:83-141 | the five blocks visit every provider once, in a fixed increasing order |
| `Keys.GetApiKeys` | convex/keys.ts:5-63 | no row gives null; otherwise exactly the decryptable keys, each as its plaintext |
| `Keys.Mask` | convex/keys.ts:88 | first four, "...", last four characters; a key shorter than four appears whole on both sides; a key of eight or more gives 11 characters |
| `Keys.MaskHidesMiddle` | convex/keys.ts:88 | for keys of eight or more, the preview shows only the first and last four characters of the key |
| `Keys.PreviewStep` | convex/keys.ts:83-93 | a decryptable key appends `{provider, masked key}`; otherwise nothing is appended |
| `Keys.Shown` | convex/keys.ts:81-143 | the providers shown are exactly the visited ones whose key decrypts |
| `Keys.PreviewsFollowShown` | convex/keys.ts:81-143 | the i-th preview is the i-th shown provider's name with its masked plaintext |
| `Keys.ShownKeepsOrder` | convex/keys.ts:81-143 | previews keep the visiting order |
| `Keys.PreviewsOrderAndContent` | convex/keys.ts:81-143 | the previews list exactly the decryptable providers, in the fixed order, each with its masked plaintext |
| `Keys.GetApiKeysPreview` | convex/keys.ts:65-145 | "Unauthorized", then a missing user row, are errors; no row gives null; otherwise the previews of the caller's row |
| `Keys.Saved` | convex/keys.ts:160-175 | after a save the caller has a row, and nobody else's rows appear or vanish |
| `Keys.SavedChangesOneField` | convex/keys.ts:160-175 | the save sets the one provider field, patching an existing row or inserting a fresh one, and changes nothing else |
| `Keys.Removed` | convex/keys.ts:191-200 | removal never adds or deletes a row |
| `Keys.RemovedClearsOneField` | convex/keys.ts:191-200 | removal clears only the provider field of the caller's existing row; without a row nothing changes |
| `Keys.RemoveUndoesSave` | convex/keys.ts:147-204 | removing after saving the same field is the same as removing alone; for a new row it leaves an empty row |
| `Keys.SaveThenRead` | convex/keys.ts:147-179 | with sound primitives, a key just saved decrypts to the saved key |
| `Keys.SaveApiKey` | convex/keys.ts:147-179 | "Unauthorized", then an unset secret, then a missing user row are errors that change nothing; success happens exactly when the session, the secret and the user row are all present, and stores the encrypted key in the caller's field; the other tables are unchanged |
| `Keys.RemoveApiKey` | convex/keys.ts:181-204 | "Unauthorized", then a missing user row, are errors that change nothing; success clears the caller's field |
| `Store.Db.InsertChat` | convex/chats.ts:90-93 | the new chat gets the next id, is appended to the table, and keeps ids increasing |
| `Store.Db.PatchChatTitle` | convex/chats.ts:119 | an unknown id is an error that changes nothing; otherwise only that chat's title changes |
| `Store.RetitleChangesOnlyTitle` | convex/chats.ts:119 | a patch keeps every chat's id, time and owner, leaves other chats alone, and sets the named chat's title |
| `Store.Scheduler.RunAfter` | convex/chats.ts:95-107 | a scheduled job joins the back of the queue |
| `Chats.FetchChats` | convex/chats.ts:33-37 | at most 100 chats, all the caller's and all from the table |
| `Chats.NewestBounds` | convex/chats.ts:33-37 | a page of n holds at most n chats of the user from the table |
| `Chats.NewestDescending` | convex/chats.ts:33-37 | the page is newest first |
| `Chats.NewestComplete` | convex/chats.ts:33-37 | a chat of the user is left off the page only when the page is full and the chat is older than all on it |
| `Chats.FetchChatsNewestFirst` | convex/chats.ts:33-37 | the 100-chat page is newest first and skips only older chats |
| `Chats.NewestInsertHeadsPage` | convex/chats.ts:33-37 | the chat inserted last heads its owner's page |
| `Chats.DateKey` | convex/chats.ts:42-60 | a chat of today's date is "Today", one of the day before is "Yesterday", and a chat of any other day is labelled with the long date of its day |
| `Chats.KeysAreLabels` | convex/chats.ts:62-71 | the group labels are distinct and are exactly the labels of the chats |
| `Chats.UnderEmptyIffNoKey` | convex/chats.ts:62-65 | a label has chats exactly when it is a group key; no group is empty |
| `Chats.UnderOnlyItsKey` | convex/chats.ts:62-65 | a group holds only chats of the input that carry its label |
| `Chats.EveryChatUnderItsKey` | convex/chats.ts:62-65 | every chat is in the group of its own label |
| `Chats.UnderKeepsOrder` | convex/chats.ts:41-65 | a newest-first input gives newest-first groups |
| `Chats.KeysGrowWithPrefix` | convex/chats.ts:62-71 | the labels of a prefix of the chats are a prefix of the labels, so groups come in first-seen order |
| `Chats.FirstChatHeadsListing` | convex/chats.ts:41-71 | the first chat's label is the first group, and the first chat heads it |
| `Chats.GroupSizesSum` | convex/chats.ts:41-71 | the group sizes add up to the number of chats; none is lost or listed twice |
| `Chats.GroupedDistinctNonEmpty` | convex/chats.ts:62-71 | the listing has no two groups with one label and no empty group |
| `Chats.GroupedMembersCarryLabel` | convex/chats.ts:62-71 | each group holds input chats carrying its label |
| `Chats.GroupedCoversChats` | convex/chats.ts:62-71 | every chat is in the listing under its own label |
| `Chats.GroupByDate` | convex/chats.ts:39-73 | the Map-building loop and the entries read back give exactly the specified grouping |
| `Chats.GetChatsGroupedByDate` | convex/chats.ts:13-75 | "Unauthorized", then a missing user row, are errors; otherwise the caller's newest 100 chats, grouped by day |
| `Chats.StartChatWithFirstMessage` | convex/chats.ts:77-111 | auth errors change nothing; success appends a "New Chat" row owned by the caller with a fresh id, queues sendMessage and then generateChatTitle for it, and returns its id |
| `Chats.StartedChatListedFirst` | convex/chats.ts:13-111 | a chat just started is the first chat of the caller's listing, under "Today" |
| `Chats.UpdateChatTitle` | convex/chats.ts:113-121 | the chat's title is replaced; a missing chat is an error that changes nothing |
| `Chats.GenerateChatTitleWith` | convex/chats.ts:143-150 | an absent or empty completion is "No response from Groq" and changes nothing; otherwise it becomes the chat's title |

## Left out

- The streaming reply (`convex/messages.ts`, `sendMessage`) is not part of this model. Neither are the UI files or `prompts.ts`. `startChatWithFirstMessage` only queues that job.
- PBKDF2, AES-GCM, TextEncoder/TextDecoder, `btoa` and `atob` are abstract functions in a `Crypto` value. Their round trips are assumed as the precondition `Sound`, not proved. Salt and IV randomness are parameters.
- `Keys.GetApiKeys`, `Keys.GetApiKeysPreview`: decryption is a parameter, a function from stored string to result. `decryptApiKey`'s own behaviour is modelled separately as `Helpers.DecryptApiKey`, and `Keys.SaveThenRead` connects the two.
- `Keys.SaveApiKey`: `provider` is one of the five providers. The source accepts any string; saving under another name writes a field the schema validator rejects.
- `Keys.RemoveApiKey`: `provider` is one of the five providers. The source accepts any string; removing a name the row does not have leaves the row as it is and succeeds, and only a required or system field (`userId`, `_id`) fails. Neither case is modelled.
- `Keys.Mask`, `Keys.MaskHidesMiddle`: the mask counts Unicode scalar values, while JavaScript's `slice` and `length` count UTF-16 code units. The two agree on keys made only of Basic Multilingual Plane characters, which covers the ASCII keys providers issue. A key with characters outside that plane (an emoji, say) gets a different preview, and a slice through a surrogate pair cannot be represented.
- `Models.Lookup`: `models[id]` in JavaScript also finds names inherited from `Object.prototype`, such as "constructor" or "toString". The model finds no config for them. `getTools` returns nothing for them either way, since they carry no `webSearch`.
- `Store.Db`: the `apiKeys` table holds at most one row per user, the one `.first()` finds through `by_user`. The `chats` table is in insertion order, which is taken as the `_creationTime` order of the `by_user` index.
- `Chats.DateKey`: the time zone and `toDateString`/`toLocaleDateString` are a `Calendar` parameter. `new Date()` is read once for the whole loop, not once per chat. The source's per-chat reading can only differ across midnight.
- `Chats.GenerateChatTitleWith`: the Groq completion call (model, prompt, token limit) is not modelled. Its reply is the `content` parameter. An empty `choices` array, which would throw a TypeError, is not modelled.
- The `console.log`/`console.error` calls and the `FIXME` typing are not modelled.

## Findings

| source | as written | input that shows it | evidently intended | confidence | as-written member | corrected member |
|---|---|---|---|---|---|---|
| convex/helpers.ts:41-47 | names starting with gpt-/o3/o4- take the OpenAI key before the "openrouter" test | "gpt-4.1-openrouter" for a user with only an OpenRouter key gets null, though models.ts:189-194 builds it on the OpenRouter client | test "openrouter" first, so the three OpenRouter ids starting gpt-/o4- need the OpenRouter key | medium, not executed | `Helpers.OpenRouterOnlyUserIsRefused` | `Helpers.CorrectedRoutingMatchesApi` |
