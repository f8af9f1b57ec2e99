# LLM-Sharkcoders relay, modelled in Dafny

LLM-Sharkcoders is a Flask web application. It relays chat requests from
logged-in users to large-language-model providers: OpenAI, Anthropic, Google
and Groq through LiteLLM, and a local Ollama server. Around that relay it
keeps user accounts with roles, monthly budgets and per-provider allow-lists.
It also keeps chat sessions with their message history, a usage log of every
request, and admin dashboards that aggregate that log.

Next to the web service, the repository has:

- a stand-alone local assistant (`app.py`) that talks to Ollama directly;
- a GPU resource manager for Whisper and Stable Diffusion;
- a health-check script;
- an interactive setup script that writes the `.env` file;
- a command-line user manager.

This project models those components and proves what each one promises:

| module | file | models |
|---|---|---|
| `Common`, `Text`, `Dict` | common.dfy | Python string helpers (`strip`, `split`, `replace`, `join`, number formatting) and insertion-ordered dicts as association lists |
| `Catalog` | catalog.dfy | `app/config.py`: the model catalogue `AI_MODELS`, the role table `USER_ROLES`, and `calculate_cost` |
| `Accounts` | accounts.dfy | `app/models/user.py`: the `User` and `ChatSession` classes, the usage log and the user table |
| `Relay` | relay.dfy | `app/services/ai_service.py`: available models, message preparation, the Ollama prompt, the streamed completion with its accounting, model comparison |
| `Tally` | tally.dfy | the aggregations of `get_user_usage_stats` and of the admin dashboard and analytics endpoints |
| `Admin` | admin.dfy | `app/controllers/admin.py`: user update rules, usage percentage, paging cap, monthly reset |
| `ChatApi` | chat_api.dfy | `app/controllers/chat.py`: sessions, the single and multi-model chat endpoints, preferences |
| `Auth` | auth.dfy | `app/controllers/auth.py`: login and registration |
| `LocalApp` | local_app.dfy | `app.py`: the Ollama client, stream decoding and the assistant's endpoints |
| `Resources` | resources.dfy | `resource_manager.py`: exclusive GPU reservations and waiting for resources |
| `Health` | health.dfy | `health_check.py`: the individual checks and the overall verdict |
| `Setup` | setup_script.dfy | `setup.py`: secret generation, the `.env` template, API-key collection |
| `UserAdmin` | user_admin.dfy | `manage_users.py`: creating and deleting users |

Modelling conventions:

- **External systems are parameters.** Providers, the Ollama server, the
  console, the clock, the random generator and system probes are all inputs.
  A provider is a function from the request it receives to the reply it
  gives, so every property holds for every possible reply.
- **Database tables** are sequences of objects held in a class (`UserTable`,
  `UsageLedger`, `SessionTable`). Rows the source updates in place are
  `class`es whose methods state their whole new state.
- **JSON columns** are datatypes with an explicit undecodable case.
- **Dicts** keep Python's insertion order. They are association lists with
  `Put` replacing a key in place or appending it.
- **Money** is `real`.

## Model

| member | source | states |
|---|---|---|
| Text.LStrip | app/controllers/chat.py:49 | the result is a suffix of the input; everything removed is whitespace; the result does not start with whitespace |
| Text.RStrip | app/controllers/chat.py:49 | the result is a prefix of the input; everything removed is whitespace; the result does not end with whitespace |
| Text.StripEmpty | app/controllers/chat.py:49-51 | a stripped message is empty exactly when the message is all whitespace |
| Text.DropWord | app/services/ai_service.py:111 | dropping the leading word leaves a suffix that is empty or starts with whitespace, and is shorter whenever the text starts with a non-space |
| Text.WordCountZero | app/services/ai_service.py:111-112 | `len(s.split())` is 0 exactly when `s` is all whitespace |
| Text.WordCountBound | app/services/ai_service.py:111-112 | a string of length n splits into at most (n+1)/2 words |
| Text.Take | app/controllers/admin.py:205 | `s[:n]` is the prefix of length min(n, len(s)) |
| Text.RStripChar | app.py:145 | `rstrip('/')` removes only trailing slashes, all of them |
| Text.ConcatAppend | app/services/ai_service.py:109 | joining two fragment lists in turn gives the joined whole |
| Text.JoinEndsWithLast | app/services/ai_service.py:247 | a `sep.join` ends with its last part |
| Text.ReplaceAbsent | setup.py:113-114 | replacing a pattern that does not occur leaves the text unchanged |
| Text.ReplaceWhole | setup.py:113-114 | a text that is exactly the pattern becomes the replacement |
| Text.NatToString | app/controllers/admin.py:443 | the decimal text of a number is non-empty and all digits |
| Text.NatToStringRoundTrip | app/controllers/admin.py:443 | parsing the decimal text of n gives back n |
| Dict.Keys | app/services/ai_service.py:43-54 | one key per entry, in insertion order |
| Dict.Get | app/services/ai_service.py:345 | `k in d` fails exactly when k is not a key; a found value is stored under k |
| Dict.Put | app/services/ai_service.py:345-353 | `d[k] = v` keeps every existing key in place and appends k only when it is new |
| Dict.GetPutSame | app/services/ai_service.py:345-353 | after `d[k] = v`, reading k gives v |
| Dict.GetPutOther | app/services/ai_service.py:345-353 | after `d[k] = v`, every other key reads as before |
| Dict.PutKeepsDistinct | app/services/ai_service.py:345-353 | assignment never duplicates a key |
| Catalog.ProviderNames | app/config.py:46-73 | one provider name per catalogue entry, in dict order |
| Catalog.OpenAiModels | app/config.py:47-52 | the OpenAI entries are tagged `openai` and have non-negative prices |
| Catalog.AnthropicModels | app/config.py:53-57 | the Anthropic entries are tagged `anthropic` and have non-negative prices |
| Catalog.GoogleModels | app/config.py:58-61 | the Google entries are tagged `google` and have non-negative prices |
| Catalog.GroqModels | app/config.py:62-66 | the Groq entries are tagged `groq` and have non-negative prices |
| Catalog.OllamaModels | app/config.py:67-72 | the Ollama entries are tagged `ollama` and cost nothing |
| Catalog.AiModels | app/config.py:46-73 | the catalogue is well formed and its providers are openai, anthropic, google, groq, ollama in that order |
| Catalog.FindProvider | app/config.py:46-73 | `AI_MODELS[provider]` is found exactly when the provider is a key |
| Catalog.FindModel | app/services/ai_service.py:60 | a found model has the requested id; no model has it when none is found |
| Catalog.Lookup | app/services/ai_service.py:60-61 | both keys exist exactly when an entry is found; a found entry has the requested provider, a non-negative price, and price 0 for Ollama |
| Catalog.Charge | app/services/ai_service.py:62 | `tokens / 1000 * cost` is non-negative for non-negative inputs and 0 at zero price |
| Catalog.ChargeAdditive | app/services/ai_service.py:62 | the charge for a+b tokens is the charge for a plus the charge for b |
| Catalog.ChargeMonotone | app/services/ai_service.py:62 | more tokens never cost less at a non-negative price |
| Catalog.CalculateCost | app/services/ai_service.py:58-63 | 0 for an unknown provider or model, otherwise the price times the tokens; never negative, and 0 for Ollama under a valid configuration |
| Catalog.CostAdditive | app/services/ai_service.py:58-63 | the cost is additive in the number of tokens |
| Catalog.CostMonotone | app/services/ai_service.py:58-63 | the cost is monotone in the number of tokens under a valid configuration |
| Catalog.UserRoles | app/config.py:76-109 | four roles; the admin's default models are the catalogue's providers; no budget ceiling is negative |
| Catalog.DefaultConfig | app/config.py:46-109 | the shipped tables are valid; every role's default models name catalogued providers |
| Catalog.FindRole | app/config.py:76-109 | a found role has the requested name; no role has it when none is found |
| Catalog.MaxBudgetFor | app/controllers/admin.py:188 | the ceiling of a known role, else 1000; never negative under a valid configuration |
| Catalog.RoleBudgets | app/config.py:83-107 | admin 1000, premium 100, standard 20, basic 0, and all four are roles |
| Catalog.RoleAt | app/controllers/admin.py:183-188 | a role whose name no earlier role has is found, with its own ceiling |
| Catalog.OllamaIsFree | app/config.py:67-72 | every Ollama request costs nothing under the shipped tables |
| Accounts.DecodeProviders | app/models/user.py:45-50 | the stored list when the column decodes, else `['ollama']` |
| Accounts.UndecodableAllowsOnlyOllama | app/models/user.py:45-59 | an undecodable allow-list admits Ollama and nothing else |
| Accounts.Permits | app/models/user.py:56-59 | the provider is admitted exactly when it or `all` is listed: a listed provider or `all` admits, an admitted provider is listed or `all` is, and a list naming neither refuses |
| Accounts.User.CheckPassword | app/models/user.py:42-43 | the password matches exactly when it is the one the stored hash was made from |
| Accounts.User.GetAllowedModels | app/models/user.py:45-50 | the stored list when the column decodes, otherwise `['ollama']` |
| Accounts.User.CanUseModel | app/models/user.py:56-59 | with an undecodable column only Ollama is admitted; with a decodable one a listed provider or `all` admits, and an admitted provider is listed or `all` is |
| Accounts.User.HasBudgetAvailable | app/models/user.py:61-63 | true exactly when the cost fits in what is left of the budget, so a non-negative cost admitted means the usage is within budget |
| UserAdmin.LogsNotOf | app/models/user.py:37 | the usage rows kept by the delete-orphan cascade: every row of another user and none of the deleted user |
| UserAdmin.DropLogsOf | app/models/user.py:37 | the ledger keeps exactly the other users' rows and stays consistent |
| Accounts.WildcardAllowsEverything | app/models/user.py:56-59 | `'all'` in the list admits every provider |
| Accounts.User.constructor | app/models/user.py:9-33 | a new user has the column defaults: standard role, budget 20, no usage, active, Ollama only, llama3, 2000 tokens |
| Accounts.User.SetAllowedModels | app/models/user.py:52-59 | the list reads back unchanged, and exactly its providers (or every one, given `'all'`) become usable |
| Accounts.User.AddUsage | app/models/user.py:61-68 | usage grows by exactly the cost; a cost the budget check admitted keeps the user within budget |
| Accounts.User.ResetMonthlyUsage | app/models/user.py:70-73 | usage becomes 0, so a user with a non-negative budget has budget available again |
| Accounts.ContextWindow | app/models/user.py:150-153 | the newest min(n, len) messages in order for n > 0, everything for n = 0 (Python's `-0` slice) |
| Accounts.DefaultWindowEndsWithLast | app/models/user.py:150-153 | the default window holds 1 to 20 messages and ends with the newest one |
| Accounts.ChatSession.constructor | app/models/user.py:100-114 | a new session is active, with no messages, no model and zero totals |
| Accounts.ChatSession.GetMessages | app/models/user.py:143-148 | the stored list, or the empty list when the column does not decode |
| Accounts.ChatSession.GetContextMessages | app/models/user.py:150-153 | the window is never longer than the history |
| Accounts.ChatSession.AddMessage | app/models/user.py:116-141 | exactly one message is appended after the old history; the totals grow by its tokens and cost; the model changes only for a non-empty model |
| Accounts.UsageRecord | app/models/user.py:180-196 | the row carries its arguments, and its total is input plus output tokens |
| Accounts.UsageLedger.LogUsage | app/models/user.py:179-201 | exactly one consistent row is appended and returned |
| Accounts.FindByUsername | app/controllers/auth.py:17 | a found user has that username; no user has it when none is found |
| Accounts.FindByEmail | app/controllers/auth.py:43 | a found user has that email; no user has it when none is found |
| Accounts.InsertKeepsUnique | app/models/user.py:11-12 | adding a user with a new username and a new email keeps both columns unique |
| Accounts.UserTable.Insert | app/models/user.py:10-12 | the user is appended, and usernames, emails and primary keys stay unique with every key below the next one |
| Accounts.UserTable.FreshId | app/models/user.py:10 | the next primary key is handed out, it is above every stored key, and the counter moves on by one |
| Accounts.UserTable.RemoveAt | manage_users.py:34 | exactly one user goes, the others keep their order, and usernames, emails and primary keys stay unique |
| Relay.HistoryPart | app/services/ai_service.py:76-81 | every message of the window except the newest, as role and content, in order |
| Relay.PreparedShape | app/services/ai_service.py:65-86 | a system message comes first exactly when a system prompt is set, then the earlier turns, and the user's message last |
| Relay.PrepareMessages | app/services/ai_service.py:65-86 | builds the prepared list for the session's default window |
| Relay.EarlierTurns | app/services/ai_service.py:77-81 | the loop yields exactly the window without its newest message |
| Relay.PromptPartsPrefixed | app/services/ai_service.py:235-244 | at most one part per message, each opening with a role prefix |
| Relay.PromptPartsAllKnown | app/services/ai_service.py:235-244 | with every role known, one part per message: its prefix and its content, in order |
| Relay.PromptPartsNoneKnown | app/services/ai_service.py:235-244 | messages with unknown roles are dropped from the prompt |
| Relay.PromptEndsWithCue | app/services/ai_service.py:246-247 | every prompt ends with `Assistant:` |
| Relay.SingleTurnPrompt | app/services/ai_service.py:231-247 | one user turn becomes `Human: <text>`, a blank line and `Assistant:` |
| Relay.MessagesToPrompt | app/services/ai_service.py:231-247 | the loop builds the prompt the specification defines |
| Relay.PartsOf | app/services/ai_service.py:235-244 | the loop yields one prefixed part per known-role message |
| Relay.Listing | app/services/ai_service.py:47-54 | every catalogued model of the provider, or nothing for an unknown provider |
| Relay.AvailableForSpec | app/services/ai_service.py:40-56 | a provider is listed exactly when it is allowed and catalogued, with all its models |
| Relay.AvailableForDistinct | app/services/ai_service.py:40-56 | each provider is listed once, however often the allow-list names it |
| Relay.WildcardListsNothing | app/services/ai_service.py:45-46 | `'all'` alone lists no models, because it is not expanded |
| Relay.WildcardIsNoProvider | app/config.py:46-73 | `'all'` is not a key of the shipped catalogue |
| Relay.GetAvailableModels | app/services/ai_service.py:40-56 | the loop builds the specified dict from the user's allow-list |
| Relay.ListModels | app/services/ai_service.py:48-54 | the inner loop lists every model of the provider, tagged with it |
| Relay.StreamTextsAppend | app/services/ai_service.py:216-223 | decoding a stream in two parts gives the decoding of the whole |
| Relay.NoiseIsSkipped | app/services/ai_service.py:217-223 | a blank or non-JSON line adds nothing, wherever it sits |
| Relay.OllamaFragments | app/services/ai_service.py:196-229 | the streamed responses in order, then one `Ollama error:` fragment if the transfer failed |
| Relay.OllamaCompletion | app/services/ai_service.py:196-229 | the loop yields exactly the specified fragments |
| Relay.CloudTexts | app/services/ai_service.py:126-130 | at most one text per chunk |
| Relay.CloudTextsAppend | app/services/ai_service.py:126-130 | the texts of a stream split in two are the first part's followed by the second's |
| Relay.SilentChunkAddsNothing | app/services/ai_service.py:126-130 | a chunk whose content is missing or empty adds no text wherever it comes in the stream |
| Relay.TokensAfter | app/services/ai_service.py:132-135 | the counts of the last chunk carrying usage (missing ones read as 0), or 0 when no chunk carries usage |
| Relay.Settle | app/services/ai_service.py:149-178 | a success row with the reported tokens and the cost of their total; a charge of that cost; an assistant message carrying the whole response exactly when there is a session |
| Relay.ErrorRecord | app/services/ai_service.py:184-192 | an error row with its message, no tokens and no cost |
| Relay.Completion | app/services/ai_service.py:88-194 | a failed budget pre-check yields only the budget message; a request is logged exactly when it passes the pre-check, once, with a consistent row |
| Relay.CompletionCharges | app/services/ai_service.py:149-178 | the user is charged exactly when the request succeeded, by the logged cost, and the session gets the whole response |
| Relay.CompletionErrors | app/services/ai_service.py:180-194 | a provider error is logged with no tokens or cost, charges nothing, appends nothing, and ends the fragments |
| Relay.CompletionOllama | app/services/ai_service.py:107-112 | Ollama requests succeed, are counted in words, and are free |
| Relay.CompletionChargeNonNegative | app/services/ai_service.py:149-168 | a charge is never negative, so usage never decreases |
| Relay.EstimateCoversSmallRequests | app/services/ai_service.py:100-104 | a request of at most 1000 tokens that passed the pre-check never takes the user past the budget |
| Relay.Accumulate | app/services/ai_service.py:108-109 | the loop joins the fragments into the full response |
| Relay.ReadCloudStream | app/services/ai_service.py:126-135 | the loop yields the non-empty contents, their join, and the last reported token counts |
| Relay.ChatCompletion | app/services/ai_service.py:88-194 | the ghost outcome is the relay's specified outcome for the user's account as it stood before the call; the fragments are its fragments, the ledger gains its usage row, the user is charged its charge, and the session gains its reply and nothing else |
| Relay.ModelIdentifierShape | app/services/ai_service.py:116 | OpenAI models go by their bare name; any other provider's model is `provider/` followed by the model name, which can be read back |
| Relay.BudgetTextShape | app/services/ai_service.py:103 | the refusal opens with the budget-exceeded text and closes with the budget to two places |
| Relay.ErrorTextShape | app/services/ai_service.py:181 | the error text names provider and model and ends with the reason |
| Relay.InputWordsBound | app/services/ai_service.py:112 | every message's words are part of the input word count |
| Relay.InputWordsZero | app/services/ai_service.py:112 | the input word count is 0 exactly when every message is blank |
| Relay.ProviderOutcome | app/services/ai_service.py:106-194 | after the pre-check, the provider call and its accounting are the specified outcome |
| Relay.ApplyOutcome | app/services/ai_service.py:155-178 | the row, the charge and the message of the outcome are applied, and nothing else |
| Relay.DisplayName | app/services/ai_service.py:290 | the catalogued display name, or the model id when the model is not catalogued |
| Relay.Compared | app/services/ai_service.py:256-296 | a provider the user may not use gets `Access denied to this model`; an answer is only given to a permitted provider and carries the display name |
| Relay.ComparisonsKeys | app/services/ai_service.py:249-298 | every choice gets an entry under `provider/model` and nothing else does; a repeated key keeps its last choice's entry |
| Relay.ComparisonsDistinct | app/services/ai_service.py:249-298 | each key appears once |
| Relay.ComparisonIsolation | app/services/ai_service.py:266-296 | the entry under a key depends only on the answers to that key's choices, so one failing provider leaves the other entries unchanged |
| Relay.CompareModels | app/services/ai_service.py:249-298 | builds the specified dict from the user's allow-list and token limit |
| Relay.CompareAll | app/services/ai_service.py:256-296 | the loop builds the specified dict |
| Relay.CompareOne | app/services/ai_service.py:257-296 | the loop body builds the specified entry |
| Tally.Totals | app/controllers/admin.py:40-42 | the request count is the number of logs |
| Tally.BumpSum | app/controllers/admin.py:60-64 | counting a log in one bucket adds exactly that log to the sum of the buckets |
| Tally.GroupByTotals | app/controllers/admin.py:58-71 | the buckets add up to the overall totals |
| Tally.GroupByDistinct | app/controllers/admin.py:58-71 | each key has one bucket |
| Tally.GroupByBucket | app/controllers/admin.py:58-71 | the bucket under a key holds exactly the logs with that key, and exists exactly when there is one |
| Tally.UserKeysDistinct | app/controllers/admin.py:333 | different users get different `user_<id>` keys |
| Tally.ModelAndProviderBuckets | app/services/ai_service.py:343-364 | the loop builds the model and provider groupings |
| Tally.OfUser | app/services/ai_service.py:325-328 | only the user's own logs are selected |
| Tally.UserUsageStats | app/services/ai_service.py:317-378 | totals over the user's logs, the budget fields, and model and provider buckets that each add up to the totals |
| Tally.TotalsOf | app/controllers/admin.py:40-42 | the loop computes the three sums |
| Tally.DashboardStats | app/controllers/admin.py:29-72 | the totals, and model and provider buckets that each add up to them |
| Tally.Successes | app/controllers/admin.py:301 | never more than the number of logs |
| Tally.PercentBounds | app/controllers/admin.py:301 | a share in percent lies in [0, 100] and is 100 only for the whole |
| Tally.SuccessRate | app/controllers/admin.py:301 | in [0, 100]; 100 exactly when every log succeeded; 0 without logs |
| Tally.AllSucceeded | app/controllers/admin.py:301 | the success count equals the number of logs exactly when every log's status is `success` |
| Tally.AverageResponseTime | app/controllers/admin.py:300 | 0 without logs, otherwise times the number of logs it gives the sum of the non-zero response times |
| Tally.GetBumpModel | app/controllers/admin.py:313-321 | counting a log touches only its own model's row, adding one request, its tokens, cost and response time |
| Tally.ModelRowsSpec | app/controllers/admin.py:311-321 | a model has a row exactly when it has logs; the row holds those logs' totals and their response-time sum |
| Tally.Averaged | app/controllers/admin.py:365-368 | same keys and buckets; each row with requests gets its sum divided by its request count |
| Tally.PutSum | app/controllers/admin.py:361-363 | assigning a count moves the total by the difference between the new and the old count |
| Tally.TickSum | app/controllers/admin.py:361-363 | counting one occurrence adds one to the total |
| Tally.ErrorAnalysisTotal | app/controllers/admin.py:358-363 | every failed log is counted once and no successful one is |
| Tally.ErrorAnalysisCount | app/controllers/admin.py:359-364 | each error key counts exactly the failed logs with that key (its message, else its status), and is listed exactly when there is one |
| Tally.ErrorAnalysisDistinct | app/controllers/admin.py:359-364 | each error key is listed once |
| Tally.UsageAnalytics | app/controllers/admin.py:284-370 | totals, average response time, success rate, averaged model rows, provider and user buckets, and the error counts |
| Tally.AnalyticsPass | app/controllers/admin.py:311-363 | the loop builds the model rows, provider and user buckets, and error counts |
| Tally.AnalyticsStep | app/controllers/admin.py:311-363 | one more log extends each table by that log alone |
| Tally.AverageRows | app/controllers/admin.py:365-368 | the loop computes the averaged rows |
| Admin.ApplyUserUpdate | app/controllers/admin.py:182-208 | a role only when it is known; a budget only within [0, the new role's ceiling]; the active flag as given; an allow-list only when it is a list; a token limit only in [100, 8000]; the prompt cut to 2000 characters; the guardrails flag as given |
| Admin.ApplyRoleAndBudget | app/controllers/admin.py:183-190 | the role, then a budget checked against the ceiling of the resulting role |
| Admin.ApplySettings | app/controllers/admin.py:192-208 | the remaining fields under their rules, and nothing else |
| Admin.FindById | app/controllers/admin.py:176 | a found user has the id; no user has it when none is found |
| Admin.UpdateUser | app/controllers/admin.py:173-215 | 404 exactly for an unknown id; otherwise 200, and the stored user obeys every update rule (role, budget within the new role's ceiling, active flag, allow-list, token limit, prompt cut, guardrails); its usage, password hash, default model and streaming flag, and every other user, are outside what it may change |
| Admin.UsagePercentageMeaning | app/controllers/admin.py:152 | the percentage lies in [0, 100] while the usage is within budget, and is 100 exactly at the budget |
| Admin.UsagePercentage | app/controllers/admin.py:152 | with a budget the percentage scales back to the usage (p × budget = usage × 100); without one it is 0 |
| Admin.PerPage | app/controllers/admin.py:120 | never more than 100 or than requested, and one of the two |
| Admin.ResetEach | app/controllers/admin.py:437-439 | every user's usage is 0 and the count is the number of users |
| Admin.ResetAllUsage | app/controllers/admin.py:431-444 | every user's usage is 0 and the message reports one reset per user |
| ChatApi.Title | app/controllers/chat.py:72 | a message of at most 50 characters is its own title; a longer one gives its first 50 characters and `...` |
| ChatApi.SessionTable.Create | app/controllers/chat.py:69-75 | a new empty active session with the next key, owned by the user, with zero totals and no model, is appended to the table, and the next key moves on by one |
| ChatApi.CreatedIsFound | app/controllers/chat.py:63-75 | a session appended under the next key is the one its owner's later lookup of that key finds |
| ChatApi.FindOwned | app/controllers/chat.py:64-67 | a found session has the id and belongs to the user; none is found exactly when the user owns no session with that id |
| ChatApi.OpenSession | app/controllers/chat.py:61-75 | a session the user owns is reused and the table is unchanged; otherwise a new active session titled from the message, empty, with zero totals and no model, is added under the next key; a session of another user is never reused |
| ChatApi.ContentFrames | app/controllers/chat.py:102-103 | one content frame per fragment, in order |
| ChatApi.ContentTextAppend | app/controllers/chat.py:102 | the text of two frame lists in turn is the text of the whole |
| ChatApi.ContentFramesText | app/controllers/chat.py:102-106 | the content frames carry the fragments' concatenation |
| ChatApi.CompleteCarriesContent | app/controllers/chat.py:89-106 | the stream opens with the session frame, holds only content frames in between, and its closing frame carries exactly their concatenation |
| ChatApi.EmitFrames | app/controllers/chat.py:89-106 | the loop emits the specified frames |
| ChatApi.TurnNotRepeated | app/controllers/chat.py:78-86 | because the user's turn is stored before preparing, the history sent is the last 19 earlier turns and never repeats the new turn |
| ChatApi.RunTurn | app/controllers/chat.py:77-101 | the session ends with its old messages, the user's message and the relay's reply if there is one, and its totals and model follow that reply; the frames, the new usage rows and the charge are those of the relay's outcome for the context window ending with the user's message; title and active flag are kept |
| ChatApi.ChatSingle | app/controllers/chat.py:45-131 | an empty message gives 400 and a forbidden provider 403, and then no table, session, ledger row or usage changes; otherwise the reply is the stream of a served turn (as ServeTurn states it) on the requested or a new session |
| ChatApi.ServeTurn | app/controllers/chat.py:61-106 | a requested session the user owns is reused, keeping its title and active flag; otherwise one titled after the message, owned by the user and active, is appended under the next key and the next key moves on; the frames are the stream of the relay's outcome on that session's history plus the message, the ledger and usage move by that outcome, the session ends with the message and the reply, its totals grow by the reply's tokens and cost and its model becomes the reply's, and every other session is untouched |
| ChatApi.Accessible | app/controllers/chat.py:149-153 | exactly the choices whose provider the user may use, and no others |
| ChatApi.FilterAccessible | app/controllers/chat.py:149-153 | the loop builds the accessible choices |
| ChatApi.ChatMulti | app/controllers/chat.py:135-166 | empty message or no choice gives 400, no accessible choice gives 403, otherwise the accessible choices are compared |
| ChatApi.DeleteSession | app/controllers/chat.py:231-245 | only a session the user owns is found; it is marked inactive rather than removed, keeping its title, messages, model and totals, and every other session is untouched |
| UserAdmin.SessionsNotOf | app/models/user.py:36 | the sessions kept by the delete-orphan cascade: every session of another user and none of the deleted user |
| UserAdmin.DropSessionsOf | app/models/user.py:36 | the table keeps exactly the other users' sessions and stays valid |
| ChatApi.UpdatePreferences | app/controllers/chat.py:274-297 | each given field is set, except that a token limit outside [100, 4000] is ignored and a system prompt is cut to 1000 characters |
| LocalApp.Decoded | app.py:217-223 | at most one object per line |
| LocalApp.DecodedAppend | app.py:217-223 | decoding a body in two parts gives the decoding of the whole |
| LocalApp.SkippedLineVanishes | app.py:218-223 | a blank or unparsable line leaves no trace, wherever it sits |
| LocalApp.Streamed | app.py:211-226 | the kept objects in order, then exactly one error object when the transfer failed |
| LocalApp.OllamaClient.constructor | app.py:144-146 | the host loses every trailing slash and nothing else |
| LocalApp.StripSlashesIdempotent | app.py:145 | stripping trailing slashes twice is stripping them once |
| LocalApp.OllamaClient.GenerateStream | app.py:196-226 | posts to `<host>/api/generate` and yields the specified objects |
| LocalApp.DecodeLines | app.py:217-223 | the loop keeps exactly the non-blank lines that parse |
| LocalApp.ConsumeAfterClean | app.py:641-654 | over objects with no error and no `done`, every response is emitted and the loop goes on |
| LocalApp.ConsumeClean | app.py:641-654 | a stream with no error and no `done` is emitted whole and ends normally |
| LocalApp.ConsumeStopsAtDone | app.py:647-654 | the stream stops after the content of the first `done` object; nothing after it is looked at |
| LocalApp.ConsumeAbortsAtError | app.py:642-645 | the first error object ends the stream with that error and without its own content |
| LocalApp.ContentEvents | app.py:647-651 | one content event per content, in order |
| LocalApp.ConsumeStream | app.py:638-662 | the loop emits the specified events and collects the emitted contents as the full response |
| LocalApp.ModesAgree | app.py:405-421 | without error objects, the whole-reply mode collects the same text as the streaming mode, and the stream ends normally |
| LocalApp.CollectUntilDone | app.py:406-415 | the loop collects every response up to and including the first `done` |
| LocalApp.KnownModels | app.py:95-121 | five known models |
| LocalApp.Matching | app.py:325-327 | exactly the known models whose name occurs in some installed model's name, in their own order |
| LocalApp.Installed | app.py:326 | a name counts exactly when it occurs in some installed model's name; in particular an installed model with exactly that name counts, and a name longer than every installed model's does not |
| LocalApp.PromptFor | app.py:638 | the prompt is the message framed by the `Utilizador: ` and `\nAssistente: ` markers, so the message can be read back from it |
| LocalApp.MatchKnown | app.py:325-327 | the loop appends the matching known models |
| LocalApp.HandledAsWritten | app.py:423-425 | every exception, including the endpoint's own HTTP 503, becomes a 500 |
| LocalApp.UnavailableBecomes500 | app.py:386-391 | the 503 for an unreachable Ollama reaches the client as a 500 |
| LocalApp.Handled | app.py:382-425 | HTTP exceptions pass through unchanged; any other exception becomes a 500 carrying its message |
| LocalApp.LocalAssistant.constructor | app.py:285-288 | no client, no history, no models |
| LocalApp.LocalAssistant.InitializeModels | app.py:315-335 | a new client for the host; the installed known models are appended when Ollama answers; the first three known models otherwise or when none matched; the list is never empty |
| LocalApp.LocalAssistant.ModelNames | app.py:367-374 | the names of the available models in order, or the default pair when there are none |
| LocalApp.LocalAssistant.ClearHistory | app.py:465-469 | the history is empty |
| LocalApp.LocalAssistant.StreamResponse | app.py:628-662 | without a client, one error event and no history change; otherwise the events of the consumed stream, and the whole text added to the history exactly when no error object ended it |
| LocalApp.LocalAssistant.Chat | app.py:382-421 | the corrected handler (see Findings): an absent or unreachable Ollama is refused with 503 and no history change; otherwise the user's turn is recorded, then the reply is streamed, or collected up to the first `done` and recorded as the assistant's turn |
| Resources.ApplyKeepsExclusive | resource_manager.py:40-68 | no single reservation or release turns both flags on |
| Resources.RunKeepsExclusive | resource_manager.py:40-68 | no sequence of reservations and releases turns both flags on |
| Resources.ReleaseIdempotent | resource_manager.py:49-53 | a release is idempotent and leaves the other service's flag alone |
| Resources.ReserveWhisperDeadlocks | resource_manager.py:40-47 | as written, `reserve_whisper` never returns: it re-acquires the non-reentrant lock it holds |
| Resources.ResourceManager.constructor | resource_manager.py:19-22 | both flags start off |
| Resources.ResourceManager.CanUseWhisper | resource_manager.py:24-38 | allowed exactly when memory use is at most 85 percent and no image generation runs |
| Resources.ResourceManager.ReserveWhisper | resource_manager.py:40-47 | succeeds exactly when speech recognition may run, and then sets its flag; a refusal changes nothing; the flags stay exclusive |
| Resources.ResourceManager.ReleaseWhisper | resource_manager.py:49-53 | clears the speech flag and nothing else |
| Resources.ResourceManager.ReserveStableDiffusion | resource_manager.py:55-62 | succeeds exactly when speech recognition is not running, and then sets the image flag; the flags stay exclusive |
| Resources.ResourceManager.ReleaseStableDiffusion | resource_manager.py:64-68 | clears the image flag and nothing else |
| Resources.ResourceManager.WaitForResources | resource_manager.py:100-122 | the polling loop returns the specified wait result and changes no flag |
| Resources.WaitedMeaning | resource_manager.py:100-122 | the wait succeeds exactly when some reading before the timeout found the service ready; any other service name always times out |
| Resources.WaitedFinds | resource_manager.py:113-117 | a successful wait has a reading that found the service ready in time |
| Resources.ReadyAtWaits | resource_manager.py:113-117 | a reading that found the service ready in time makes the wait succeed |
| Resources.OptimalModel | resource_manager.py:70-81 | one of medium, small, base, tiny |
| Resources.OptimalModelMonotone | resource_manager.py:70-81 | more free memory never yields a smaller model |
| Health.Status | health_check.py:29-53 | The overall status is always `healthy` or `unhealthy`, and it is `unhealthy` exactly when some check raised or said `healthy: False`. |
| Health.Passed | health_check.py:36-46 | a check passes exactly when what the report records for it does not say `healthy: False`, so a check that raised fails |
| Health.RunAllChecks | health_check.py:29-53 | one entry per check in registration order, a raised check recorded as unhealthy with its error, every check run even after a failure, and `healthy` exactly when every check passed |
| Health.SystemCheck | health_check.py:55-65 | healthy exactly when CPU and memory use are both below 90 percent |
| Health.WhisperCheck | health_check.py:67-82 | healthy exactly when the status endpoint answers 200 with `loaded` true |
| Health.OllamaCheck | health_check.py:84-100 | healthy exactly when the tag list answers 200 with at least one model |
| Health.DiskCheck | health_check.py:102-112 | healthy exactly with more than 5 GiB free |
| Health.MemoryCheck | health_check.py:114-124 | healthy exactly below 85 percent memory use |
| Health.GpuCheck | health_check.py:126-153 | unhealthy only when a GPU is present and its statistics cannot be read |
| Health.Outcomes | health_check.py:19-27 | one outcome per registered check |
| Health.HealthyIffAllWithin | health_check.py:19-153 | the report is healthy exactly when every threshold holds and every probed service is up |
| Setup.Slug | setup.py:113 | the key's slug keeps its length, lower-cases letters and turns underscores into hyphens, position by position |
| Setup.Placeholder | setup.py:113-114 | a placeholder is `your-` followed by the key's slug |
| Setup.SlugIsLowerKebab | setup.py:113 | a slug holds no underscore and no upper-case letter |
| Setup.PlaceholderInjective | setup.py:111-114 | two configuration keys with the same placeholder are the same key, so no secret lands in another key's place |
| Setup.GenerateSecrets | setup.py:51-62 | four secrets in order; the two LiteLLM keys are `sk-` followed by their random token |
| Setup.FillSecrets | setup.py:111-114 | the template after substituting every secret, `-here` variant first, in dictionary order |
| Setup.HereVariantFirst | setup.py:113-114 | a `-here` placeholder receives exactly the secret, whereas substituting the bare placeholder first would leave a stray `-here` |
| Setup.SetupEnvironment | setup.py:64-122 | the written configuration is the example file (or the built-in template when it is missing) with the generated secrets filled in |
| Setup.ReplyTo | setup.py:156-165 | a blank answer skips, an answer whose stripped text has an accepted prefix is taken stripped, anything else is malformed |
| Setup.ValidApiKey | setup.py:160 | a key is accepted exactly when it starts with `sk-`, `gsk_`, `AIza` or `xai-` |
| Setup.AnswerFrom | setup.py:154-165 | the prompt for one provider ends at the first blank or well-formed reply, consuming it |
| Setup.AnswerSkipsMalformed | setup.py:161-165 | every reply before the one ending a prompt was malformed; input runs out only after malformed replies |
| Setup.Replies | setup.py:156 | one reply per console line, each read as the prompt reads it |
| Setup.RepliesValid | setup.py:160 | every well-formed reply carries a key with an accepted prefix |
| Setup.CollectedFrom | setup.py:147-165 | at most one key per provider, each under a provider asked for and taken from a well-formed reply |
| Setup.Ask | setup.py:155-165 | the retry loop of one prompt ends exactly as the prompt specification says |
| Setup.CollectKeys | setup.py:154-165 | the collected keys are those of the specification, or nothing when the input runs out |
| Setup.CollectedKeysValid | setup.py:154-165 | every recorded key has an accepted prefix and belongs to a provider that was asked for |
| Setup.UpdateConfig | setup.py:170-174 | the configuration after replacing each accepted key's placeholder line |
| Setup.UpdateFillsLine | setup.py:173 | a `KEY=your-key` line receives exactly `KEY=value` |
| Setup.GetApiKeys | setup.py:139-178 | stops exactly when the input runs out; otherwise records only valid keys of the four providers, and rewrites the file exactly when a key was accepted and the file exists |
| Auth.Login | app/controllers/auth.py:8-26 | signed-in visitors go to the dashboard, GET shows the form; a POST goes to the dashboard exactly when the username exists and the password matches, otherwise it flashes the message and returns to the form; a session is started exactly when, in addition, the user is active, as `login_user` refuses an inactive user (the `is_active` column of app/models/user.py:19) |
| Auth.LoginMeaning | app/controllers/auth.py:17-23 | with unique usernames, sign-in succeeds exactly when some active user has that username and password |
| Auth.Admit | app/controllers/auth.py:38-52 | a taken username refuses first, then a taken email; otherwise exactly one fresh standard, active user with those credentials is appended under the next primary key, and usernames, emails and keys stay unique |
| Auth.FindAppended | app/controllers/auth.py:38-52 | a user appended under an unused username is the one a lookup finds |
| Auth.Register | app/controllers/auth.py:29-56 | the answers for each case, the table unchanged unless both username and email are free, and the new user can then sign in with the same password |
| UserAdmin.CreateUser | manage_users.py:5-26 | true exactly when username and email are both free, appending exactly one user with those credentials; otherwise nothing changes |
| UserAdmin.IndexOfUsername | manage_users.py:32 | the position of the first user with that username, absent exactly when no user has it |
| UserAdmin.DeleteUser | manage_users.py:28-40 | true exactly when the username exists; that user is removed, the others keep their order, nobody with that username remains, and the cascade removes exactly that user's chat sessions and usage rows; otherwise nothing changes |
| UserAdmin.GoneAfterRemoval | manage_users.py:34 | with unique usernames, removing the holder of a username leaves nobody with it |

## Left out

- Accounts.ChatSession.GetContextMessages: its own contract only bounds the window's length; the exact content (the newest messages in order, and the whole history for 0) is stated by `Accounts.ContextWindow`, which it returns.
- LocalApp.LocalAssistant.Chat: models the corrected handler, which answers 503 when Ollama is absent or unreachable. As written, the `except Exception` around the handler catches that 503 and the client receives a 500 with detail `503: Ollama indisponível - verifique container`; `LocalApp.UnavailableBecomes500` exhibits this (see Findings).
- Relay.InputWords, Tally.GroupBy and Tally.ErrorAnalysis: these folds carry no contract of their own; what they compute is stated by the lemmas about them (`Relay.InputWordsBound`, `Relay.InputWordsZero`, `Tally.GroupByTotals`, `Tally.GroupByDistinct`, `Tally.GroupByBucket`, `Tally.ErrorAnalysisTotal`, `Tally.ErrorAnalysisCount`, `Tally.ErrorAnalysisDistinct`).
- Resources.ResourceManager.WaitForResources: requires the last probe to be taken at or after the timeout. The real loop reads the clock until it passes the timeout, so the probes are the readings it takes; `time.sleep` and the clock are not modelled.
- Text.Fixed2: the budget-exceeded message formats money by truncating to two decimals, while Python's `{:.2f}` rounds. Money is `real`, and floating-point rounding is not modelled anywhere (nor is `round(response_time, 2)` in `compare_models`).
- Form and JSON fields that are missing (`None`) are not modelled: every field arrives as a string, number or list of the expected type.
- Passwords: werkzeug's salted hashing is `HashOf(p)`, which only `p` matches. Salts and hash collisions are not modelled.
- Text: `str.lower()` is modelled for ASCII letters only, which covers the configuration keys it is applied to.
- Concurrency: the `threading.Lock` of the resource manager is modelled as a single lock flag, only to exhibit the deadlock (see Findings). The corrected operations are sequential.
- The event-loop bridge of the chat endpoint and `asyncio.run` in `compare_models`: providers are called one after the other.
- Providers, LiteLLM, the Ollama HTTP API and the health probes (CPU, memory, disk and GPU readings, HTTP status of services) are parameters. Their retries, timeouts and transport details are not modelled: `test_connection` is a `connected` input.
- The `stream=False` branches of `chat_completion` are not modelled; every caller in the repository streams.
- Time: latencies from `time.time()`, timestamps and `strftime` day and hour buckets are not modelled. The admin dashboard's 30-day window, the analytics' `days` cutoff, and the daily and hourly breakdowns are therefore left out; the aggregations run over the logs they are given.
- The admin dashboard's top-users query, `api_get_users` filtering and pagination beyond the `per_page` cap, `api_get_user_chats` and `api_system_health` are read-only queries or probes; they are not modelled.
- Read-only chat views are not modelled: the session list, one session's view and the export (JSON rendering of stored data). The `get_user_stats` and `get_available_models` endpoints only return `Tally.UserUsageStats` and `Relay.GetAvailableModels`.
- `logout`, `update_last_login`, `to_dict` and `list_users`: session bookkeeping and rendering with no rule to prove.
- Image generation, Stable Diffusion loading, voice chat, the Whisper endpoints, service and configuration: ML inference, audio and static tables.
- `app.py`'s model pulling and its `/api/models/detailed`, `/api/status` and `/api/health` endpoints: network and system probes.
- `setup.py`'s requirement check, directory creation, Ollama and Docker installation, and banners: subprocess and console output. Random tokens from `secrets.token_hex` are parameters, as are console lines and file contents.
- Setup.DefaultTemplate: the built-in configuration template is a constant literal; no property depends on its text beyond it being substituted like the example file.
- SQLAlchemy sessions, commits and queries are in-memory sequences. `first()` is the first matching row in insertion order.
- Messages printed to the console by `manage_users.py`, `health_check.py` and `setup.py` are not modelled; the values those functions return are.

## Findings

| source | as written | input that shows it | evidently intended | confidence | as-written member | corrected member |
|---|---|---|---|---|---|---|
| resource_manager.py:40-47 | `reserve_whisper` takes the non-reentrant lock, then calls `can_use_whisper`, which takes the same lock again (resource_manager.py:26) | any call of `reserve_whisper` | check memory and Stable Diffusion under one lock acquisition, then set `whisper_active` | not executed | Resources.ReserveWhisperDeadlocks | Resources.ResourceManager.ReserveWhisper |
| app.py:386-391 | the chat endpoint's `except Exception` also catches its own `HTTPException(503)` and re-raises it as a 500 (app.py:423-425) | a chat request while the Ollama client is absent or unreachable | the 503 reaches the client; only unexpected errors become a 500 | not executed | LocalApp.UnavailableBecomes500 | LocalApp.Handled |
