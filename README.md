# llm-trainer, modelled in Dafny

llm-trainer connects a local LLM server (Ollama behind a FastAPI app), a
middleware that runs training conversations between that LLM and the
CEREBRUM agent, and two messaging front ends: a Telegram bot and a Twilio
SMS server. Users of either front end register a name with `name=<name>`
(or `/setname <name>` on Telegram). They then chat with the AI. The store
keeps each user's history, and the last five exchanges are handed to the AI
as context. A launcher checks the configuration, starts the four services
in a fixed order and watches them. A dependency checker reads
`requirements.txt` before anything starts.

The model follows the program's files, one module each:

- `pytext.dfy` (`PyText`) holds the Python string and list operations the
  code relies on: truthiness, `strip`, ASCII `lower`, `in`, `join`,
  `s[-k:]`, `str(int)`, and list comprehensions as `Filter`.
- `wrappers.dfy` (`Wrappers`) holds `Option` and `Result`.
- `name_command.dfy` (`NameCommand`) holds the two regular expressions
  `^name\s*=\s*(.+)$` and `^/setname\s+(.+)$`, and the clean-up of the
  captured name.
- `history_format.dfy` (`HistoryFormat`) holds the pairing loop of
  `get_conversation_history_formatted` and the `ORDER BY … DESC LIMIT n`,
  reversed, history query. Both databases share them.
- The two SQLite stores are classes over their tables: `messaging_database.dfy`
  (`MessagingStore`) and `sms_database.dfy` (`SmsStore`).
- `sms_service.dfy` and `telegram_service.dfy` hold the static helpers of
  the two provider wrappers: name commands, phone normalisation, message
  splitting and truncation, Markdown escaping and update extraction.
- `sms_server.dfy` and `telegram_server.dfy` hold the webhook and message
  handlers, each specified as a function from a snapshot of the store and
  the outbox to the snapshot after it. A class whose methods change the
  store is proved to take exactly that step. The Telegram polling loop is
  also here.
- `middleware.dfy` holds the `TrainingState` object, the endpoints that
  change it, and the training loop, driven by a finite script of agent
  answers.
- `llm_server.dfy` holds the prompt, the reply mapping, the chat status
  rules and the port selection. `port_utils.dfy` holds `find_free_port`.
- `check_dependencies.dfy` holds requirement parsing, classification and
  installation.
- `launcher.dfy` holds the `start_llm_trainer.py` configuration check, the
  start loop, the monitoring loop and the process recognition.

HTTP calls, sockets, processes and the clock are inputs. They enter as
function-typed parameters (`Ai`, `Probe`, `Availability`, `portFree`) or as
finite scripts of what each call returns, one entry per iteration. A loop
that the program runs forever (`while True`, or until another thread lowers
a flag) runs over such a script. Running out of script stands for the
interrupt that ends the real loop.

## Model

| member | source | states |
|---|---|---|
| HistoryFormat.FormatHistory | sms_database.py:240-253 | the loop builds exactly `Pairs(messages)`: a user row opens an exchange, and the next assistant row closes and appends it |
| HistoryFormat.PairsAreAdjacent | messaging_database.py:340-355 | the exchanges are exactly the user rows immediately followed by an assistant row; lone rows are dropped |
| HistoryFormat.PairsBound | sms_database.py:245-251 | each exchange consumes two rows, so at most `limit` exchanges come from `2 * limit` rows |
| HistoryFormat.PairsOfFlatten | messaging_database.py:340-355 | formatting the stored rows of a list of exchanges gives that list back (round trip) |
| HistoryFormat.Flatten | messaging_database.py:340-355 | a list of exchanges is stored as twice as many user/assistant rows |
| HistoryFormat.MostRecent | sms_database.py:207-221 | `LIMIT n` keeps `n` rows, or all of them for `n` negative or at least the row count |
| HistoryFormat.MostRecentIsSuffix | sms_database.py:207-221 | the rows read back and reversed are the newest ones, in stored order |
| MessagingStore.FindUser | messaging_database.py:94-111 | the row found satisfies the id and optional platform filter; none is found only when no row does |
| MessagingStore.Renamed | messaging_database.py:170-190 | exactly the selected rows get the new name and `updated_at`; the others are unchanged |
| MessagingStore.FindRenamed | messaging_database.py:158-197 | after a rename the lookup finds the same user it found before, now with the new name |
| MessagingStore.FindAppended | messaging_database.py:137-143 | a row appended where no earlier row matches is the one the lookup then finds |
| MessagingStore.NoIdNoUser | messaging_database.py:94-111 | with no row under the id, no lookup of it finds a user, whatever the platform |
| MessagingStore.RecentIsSuffix | messaging_database.py:276-323 | the history is the last `2 * limit` messages of the user, all of them when fewer or when the limit is negative |
| MessagingStore.Messages | messaging_database.py:318-321 | the (role, message) pairs of the rows, in order and one per row |
| MessagingStore.MessagingDatabase.constructor | messaging_database.py:25-81 | a fresh database has no users, no conversation rows, and id counter 1 |
| MessagingStore.MessagingDatabase.GetUser | messaging_database.py:83-111 | returns a row matching the id and platform filter, or None exactly when none matches |
| MessagingStore.MessagingDatabase.CreateUser | messaging_database.py:113-156 | inserts a row with both timestamps `now`; an id already stored on any platform is an integrity error that changes nothing |
| MessagingStore.MessagingDatabase.UpdateUserName | messaging_database.py:158-197 | renames exactly the selected rows; returns true iff some row was selected |
| MessagingStore.MessagingDatabase.UpdateUserAiBackend | messaging_database.py:199-238 | changes only `ai_backend` and `updated_at` of the selected rows; returns true iff some row was selected |
| MessagingStore.MessagingDatabase.AddConversationMessage | messaging_database.py:240-274 | appends one row whose id is larger than every stored id; users are unchanged |
| MessagingStore.MessagingDatabase.GetConversationHistory | messaging_database.py:276-323 | returns the `2 * limit` most recent messages of the user, oldest first |
| MessagingStore.MessagingDatabase.GetConversationHistoryFormatted | messaging_database.py:325-355 | returns the exchanges of that history, at most `limit` of them |
| MessagingStore.MessagingDatabase.ClearConversationHistory | messaging_database.py:357-385 | deletes exactly the selected rows, keeps the rest in order, and returns how many were deleted |
| MessagingStore.MessagingDatabase.GetAllUsers | messaging_database.py:387-408 | returns the users on the platform (all without one), most recently created first |
| MessagingStore.MessagingDatabase.GetUserCount | messaging_database.py:410-430 | the number of users on the platform, at most the number of rows, and all rows without a platform |
| SmsStore.Messages | sms_database.py:218-221 | the (role, message) pairs of the rows, in order and one per row |
| SmsStore.RecentIsSuffix | sms_database.py:190-223 | the history is the last `2 * limit` messages of the number, or all of them |
| SmsStore.SmsDatabase.constructor | sms_database.py:24-71 | a fresh database has no users and no conversation rows |
| SmsStore.SmsDatabase.GetUser | sms_database.py:73-92 | returns the user iff the number is registered |
| SmsStore.SmsDatabase.CreateUser | sms_database.py:94-124 | registers a new number with `created_at == updated_at == now`; a registered number is an integrity error that changes nothing |
| SmsStore.SmsDatabase.UpdateUserName | sms_database.py:126-154 | returns true iff the number is registered; then only its name and `updated_at` change |
| SmsStore.SmsDatabase.AddConversationMessage | sms_database.py:156-188 | appends one row whose id is larger than every stored id |
| SmsStore.SmsDatabase.GetConversationHistory | sms_database.py:190-223 | the `2 * limit` most recent messages of the number, oldest first |
| SmsStore.SmsDatabase.GetConversationHistoryFormatted | sms_database.py:225-253 | the exchanges of that history, at most `limit` of them |
| SmsStore.SmsDatabase.ClearConversationHistory | sms_database.py:255-276 | deletes exactly the number's rows, returns their count, and leaves none of them |
| SmsStore.SmsDatabase.GetAllUsers | sms_database.py:278-283 | every user, most recently created first |
| SmsStore.SmsDatabase.GetUserCount | sms_database.py:285-289 | the number of registered numbers, which is the length of `get_all_users` |
| SmsStore.DistinctKeys | sms_database.py:278-289 | listing each registered number once takes as many entries as there are users |
| NameCommand.CaptureRest | sms_service.py:86-87 | the `(.+)$` group is the text left after greedy whitespace; it is non-empty and newline-free |
| NameCommand.MatchNameEquals | sms_service.py:86-87 | on a stripped message: `name` in any case, optional spaces, `=`, then the group |
| NameCommand.MatchSetName | telegram_service.py:230-231 | `/setname` in any case, at least one whitespace character, then the group |
| NameCommand.CleanName | sms_service.py:90-92 | `strip()`, then `strip('"')`, then `strip("'")`; the result is newline-free when the group is |
| NameCommand.NameOf | sms_service.py:89-95 | an empty cleaned name is None; a returned name is non-empty and newline-free |
| NameCommand.NameOfPlain | sms_service.py:89-93 | a plain name (no outer spaces or quotes) is registered as written |
| NameCommand.MatchNameEqualsPlain | sms_service.py:86-90 | `name=<n>` captures `n` whole for a plain name |
| NameCommand.MatchSetNamePlain | telegram_service.py:230-234 | `/setname <n>` captures `n` whole for a plain name |
| SmsService.ParseNameCommand | sms_service.py:70-95 | a parsed name is non-empty and newline-free, and the stripped message starts with `name` in any case |
| SmsService.ParseNamePlain | sms_service.py:70-108 | `name=<n>` with a plain name parses to `n` and is a name command |
| SmsService.ParseNameIgnoresPadding | sms_service.py:83 | surrounding whitespace does not change the parse |
| SmsService.NormalizePhoneNumber | sms_service.py:172-193 | the result is `+` and digits; a leading `+` keeps the digits after it, ten digits get `+1`, any other count gets `+` |
| SmsService.NormalizeIdempotent | sms_service.py:172-193 | normalising a normalised number changes nothing |
| SmsService.NormalizeUsNumber | sms_service.py:186-189 | ten national digits, however punctuated, become the 12-character `+1` number |
| SmsService.TruncateSms | sms_service.py:50-51 | text up to 1600 characters is sent as is; longer text becomes its first 1597 characters and `...` |
| SmsService.TruncateSmsBound | sms_service.py:50-51 | every body sent is at most 1600 characters, and truncating twice is truncating once |
| SmsServer.StoredRow | sms_server.py:233 | storing a message adds exactly that message to the number's rows and to no other number's |
| SmsServer.AiReplyStores | sms_server.py:225-247 | the AI step stores the user message, and the answer only when there is one; it sends one reply, leaves users and other numbers' rows alone, and passes at most five exchanges |
| SmsServer.UninitialisedIgnores | sms_server.py:178-181 | without the SMS service the webhook changes nothing |
| SmsServer.OnlyTheSenderChanges | sms_server.py:183-247 | replies go only to the normalised sender; no other number's rows or user change |
| SmsServer.NameMessageRegisters | sms_server.py:190-213 | a name message stores its name under the number: a known number is renamed (creation time kept), an unknown one registered; no conversation row is written |
| SmsServer.UnknownGetsWelcome | sms_server.py:216-222 | a regular message from an unknown or nameless number gets the welcome text and writes nothing |
| SmsServer.NamedNumberChats | sms_server.py:224-247 | a named number's message is answered from the history as it was before it; the message and any answer are stored; the answer, or the error text, is sent |
| SmsServer.NeverInvalidName | sms_server.py:190-199 | the "valid name" reply is never sent, because every name command carries a name |
| SmsServer.RouteReplies | sms_server.py:188-247 | every branch sends exactly one reply |
| SmsServer.SmsApp.constructor | sms_server.py:126-142 | the app starts with an empty store and outbox |
| SmsServer.SmsApp.SmsWebhook | sms_server.py:157-264 | performs exactly the `Webhook` step on the store and outbox, and always answers with the empty TwiML document |
| SmsServer.SmsApp.NameMessage | sms_server.py:190-213 | performs exactly the name-branch step |
| SmsServer.SmsApp.RegularMessage | sms_server.py:215-247 | performs exactly the welcome-or-AI step |
| SmsServer.SmsApp.AnswerWithAi | sms_server.py:225-247 | reads the history, stores the user message, asks the AI, then answers |
| SmsServer.SmsApp.SendAnswer | sms_server.py:238-247 | stores and sends a truthy answer (cut to SMS length), else sends the error text |
| SmsServer.SmsApp.ClearUserHistory | sms_server.py:319-337 | normalises the number, deletes exactly its rows and returns their count; users are unchanged |
| TelegramService.ParseNameCommand | telegram_service.py:204-238 | `name=` is tried first, and an empty name there gives None without trying `/setname`; a name is non-empty and newline-free |
| TelegramService.ParseNameEqualsPlain | telegram_service.py:204-251 | `name=<n>` with a plain name parses to `n` |
| TelegramService.NameEqualsIsNoCommand | telegram_service.py:219-264 | a `name=` message is not a bot command |
| TelegramService.ParseSetNamePlain | telegram_service.py:229-236 | `/setname <n>` with a plain name parses to `n` |
| TelegramService.SetNameIsCommand | telegram_service.py:229-264 | a `/setname` message is a bot command |
| TelegramService.ParseIgnoresPadding | telegram_service.py:217 | surrounding whitespace changes neither test |
| TelegramService.CommandNameIsSetName | telegram_service.py:204-264 | a name command that is also a bot command has the `/setname` shape |
| TelegramService.SendMessage | telegram_service.py:35-65 | text over 4000 characters goes out as consecutive 4000-character pieces whose concatenation is the text, with success reported whatever the API said; shorter text goes out once with the API's answer |
| TelegramService.EscapeMarkdown | telegram_service.py:360-376 | one `replace` per special character, in the source's order |
| TelegramService.ReplaceEscapes | telegram_service.py:373-374 | each round escapes the replaced character and leaves the others |
| TelegramService.EscapeLength | telegram_service.py:360-376 | escaping adds exactly one character per special character of the input |
| TelegramService.UnescapeEscape | telegram_service.py:360-376 | dropping the inserted backslashes gives the input back (nothing is lost) |
| TelegramService.IdStringRoundTrip | telegram_service.py:415-416 | `str(id)` reads back as the id, and a missing id reads back as none |
| TelegramService.FullName | telegram_service.py:419-423 | None without a first name; else `first last` stripped |
| TelegramService.FullNameOfNeatNames | telegram_service.py:423 | neat first and last names come out as `first last` |
| TelegramService.ExtractMessageData | telegram_service.py:399-435 | None exactly for a missing or empty message; otherwise the text comes out already stripped and the chat id reads back from its string |
| TelegramService.ExtractedFields | telegram_service.py:415-432 | the text is the message text without surrounding whitespace (empty when absent); the user id reads back from its string; the username and full name are the sender's |
| TelegramServer.LastTruthyIdIsLast | telegram_server.py:457-461 | the reference offset source is the id of the last update whose id is truthy, or None when there is none |
| TelegramServer.StopIndex | telegram_server.py:436-453 | the loop runs up to the first stop request |
| TelegramServer.RegisterTakesEffect | telegram_server.py:173-185 | a rename keeps the user count, a creation adds one, and the insert fails only when the id belongs to another platform; otherwise the name is stored and the matching reply sent |
| TelegramServer.AiReplyStores | telegram_server.py:203-229 | the AI step stores the user message, and the answer only when there is one; it sends one reply and passes at most five exchanges |
| TelegramServer.StoredRow | telegram_server.py:212 | storing a message adds exactly that message to the chat's rows |
| TelegramServer.AnonymousGetsWelcome | telegram_server.py:188-201 | a regular message with neither a stored nor a Telegram name gets the welcome text and writes nothing |
| TelegramServer.TelegramNameFallsThrough | telegram_server.py:191-229 | with only a Telegram name, that name is registered and the message is then answered like a chat |
| TelegramServer.ProcessChat | telegram_server.py:187-240 | a regular message that is not a name message goes to the chat branch |
| TelegramServer.NamedUserChats | telegram_server.py:203-229 | a named user's message is answered from the earlier history; the message and any answer are stored |
| TelegramServer.StartGreets | telegram_server.py:255-269 | `/start` greets a named user by name, registers a Telegram name, or greets anonymously |
| TelegramServer.NameMessageRegisters | telegram_server.py:162-185 | a name message registers its name, unless the chat id belongs to another platform (error text) |
| TelegramServer.SetNameNeverRegisters | telegram_server.py:158-159 | as written, `/setname` at any recursion depth leaves the store unchanged and sends only the error text |
| TelegramServer.NeverInvalidName | telegram_server.py:163-171 | as written, no message ever gets the "valid name" reply |
| TelegramServer.SetNameRoute | telegram_server.py:253-282 | `/setname <n>` takes the `/setname` branch of `handle_command` |
| TelegramServer.SetNameRegisters | telegram_server.py:280-282 | with `/setname` routed to the name registration, `/setname <n>` registers `n` (or sends the error text when the id is another platform's) |
| TelegramServer.AsWrittenAgreesOffSetName | telegram_server.py:140-288 | the router as written and the corrected one handle every message except `/setname` alike, at any recursion depth, so the chat and name lemmas hold for the program's router |
| TelegramServer.OffsetAfterAppend | telegram_server.py:457-461 | the offset after two batches is the second's offset, starting from the first's |
| TelegramServer.OffsetBeforeIsLast | telegram_server.py:451-461 | the offset of each `get_updates` call is one past the last truthy id of every update before it |
| TelegramServer.DeliveredAppend | telegram_server.py:457-472 | delivering two batches is delivering their concatenation |
| TelegramServer.TelegramBot.constructor | telegram_server.py:40-62 | an empty store and outbox, with polling off |
| TelegramServer.TelegramBot.RegisterName | telegram_server.py:173-185 | performs exactly the `Register` step |
| TelegramServer.TelegramBot.AnswerWithAi | telegram_server.py:203-229 | performs exactly the AI step |
| TelegramServer.TelegramBot.SendAnswer | telegram_server.py:220-229 | stores and sends a truthy answer, else sends the error text |
| TelegramServer.TelegramBot.ChatMessage | telegram_server.py:187-229 | performs exactly the chat step |
| TelegramServer.TelegramBot.NonCommandMessage | telegram_server.py:162-229 | performs a name-command or chat step |
| TelegramServer.TelegramBot.RunCommand | telegram_server.py:253-288 | performs `/start`, `/help`, `/clear` or the unknown-command reply |
| TelegramServer.TelegramBot.ProcessTelegramMessage | telegram_server.py:140-240 | performs exactly the as-written step, down to the recursion limit |
| TelegramServer.TelegramBot.HandleCommand | telegram_server.py:243-288 | performs exactly the as-written command step |
| TelegramServer.TelegramBot.SetNameAsWritten | telegram_server.py:280-282 | the `/setname` branch calls back into `process_telegram_message` |
| TelegramServer.TelegramBot.HandleCommandCorrected | telegram_server.py:243-288 | the command step with `/setname` routed to the name registration |
| TelegramServer.TelegramBot.ProcessMessage | telegram_server.py:140-240 | performs exactly the corrected step |
| TelegramServer.TelegramBot.TelegramWebhook | telegram_server.py:314-356 | always answers ok; a text message of the update is handled by `process_telegram_message` as written, nothing happens without the service |
| TelegramServer.TelegramBot.PollUpdate | telegram_server.py:457-472 | one update moves the offset past a truthy id and hands a text message to `process_telegram_message` as written |
| TelegramServer.TelegramBot.PollBatch | telegram_server.py:455-472 | the offset after a batch, and the delivery of every update in it through the router as written |
| TelegramServer.TelegramBot.PollingLoop | telegram_server.py:448-478 | each `get_updates` call passes the reference offset; the state is the delivery, through the router as written, of every batch before the first stop request, and the flag is down iff a stop came |
| TelegramServer.TelegramBot.HandleEvent | telegram_server.py:453-472 | a stop request lowers the flag and changes nothing else; a batch is delivered through the router as written |
| TelegramServer.TelegramBot.StartPolling | telegram_server.py:415-433 | "already_running" with the flag up; a 503 without the service; otherwise the flag goes up and one thread starts |
| TelegramServer.TelegramBot.StopPolling | telegram_server.py:436-445 | "stopped" or "not_running" by the old flag; the flag is down afterwards |
| Middleware.TracksFirst | middleware.py:283-286 | after the greeting the context holds that one exchange |
| Middleware.HistoryOfAppend | middleware.py:341-344 | logging one more exchange appends its context entry |
| Middleware.TailKeepsShort | middleware.py:347-348 | `s[-k:]` of a list no longer than `k` is the whole list |
| Middleware.HistoryStep | middleware.py:340-348 | the bounded history is always the last `2 * max_history` context entries of the run (all of them for 0, since `[-0:]` keeps everything) |
| Middleware.TopicsFromRun | middleware.py:204-208 | without wrapping, successive topics are a contiguous run of the list |
| Middleware.TopicsFromWrap | middleware.py:207 | running off the end continues from the start |
| Middleware.TopicRotation | middleware.py:204-208 | `len(topics)` calls from any cursor return the list rotated to start there, each topic exactly once |
| Middleware.TrainingState.constructor | middleware.py:96-107 | not running, all counters zero, empty log and topic |
| Middleware.TrainingState.GetNextTopic | middleware.py:204-208 | returns the topic under the cursor and moves the cursor on circularly; an empty list raises with nothing changed |
| Middleware.TrainingState.SaveConversationLog | middleware.py:211-237 | a session file is written exactly when the log is not empty |
| Middleware.TrainingState.StartTraining | middleware.py:416-455 | refused while running or when either agent is unreachable (CEREBRUM first), with nothing changed; otherwise a fresh run starting at `now` |
| Middleware.TrainingState.StopTraining | middleware.py:458-470 | refused when not running; otherwise only `running` changes |
| Middleware.TrainingState.GetConversationLog | middleware.py:486-494 | `log[-limit:]` and the log's length: the last `limit` entries, the whole log for 0, and all but the first `-limit` for a negative limit |
| Middleware.TrainingState.SwitchTopic | middleware.py:293-304 | the topic counter restarts, the cursor moves on, and CEREBRUM's answer to the new topic (or "") is the next message |
| Middleware.TrainingState.RelayTurn | middleware.py:305-348 | the LLM answers with the last `max_history` context entries; a failure of either agent skips the turn with nothing logged; otherwise one exchange is logged and the history stays bounded |
| Middleware.TrainingState.Iterate | middleware.py:291-357 | one loop pass switches topic or relays, and logs at most one exchange |
| Middleware.TrainingState.RunLoop | middleware.py:291-357 | the loop stops when the run is stopped, the budget is spent, or an empty topic list raises; the exchange count never exceeds the budget, and it equals the log length before and after, as `Valid` keeps |
| Middleware.TrainingState.TrainingLoop | middleware.py:240-363 | the greeting exchange, then the loop; the run is not active at the end and the log is saved exactly when it is not empty |
| LlmServer.Rendered | llm_server.py:132-133 | at most five history entries are rendered |
| LlmServer.BlocksAppend | llm_server.py:133-135 | the prompt lines of a concatenation are the lines of each part, in order |
| LlmServer.PromptShape | llm_server.py:130-137 | the prompt renders the last five entries (a shorter history whole) and ends with the closing lines; with no history it is the closing lines alone |
| LlmServer.BuildPrompt | llm_server.py:130-137 | the loop builds exactly that prompt |
| LlmServer.Generated | llm_server.py:158-170 | a 200 reply gives its stripped `response` field (empty when missing); any other status or an exception gives None |
| LlmServer.ChatStatus | llm_server.py:198-223 | 503 iff Ollama is unreachable; 500 iff it is reachable and no non-empty text came back; otherwise a 200 reply's stripped, non-empty text |
| LlmServer.SelectPort | llm_server.py:45-49 | scans the configured range (8030-8035 by default) and listens on its first available port; the error is raised iff none is available |
| LlmServer.LlmContexts.Reset | llm_server.py:252-257 | every stored conversation context is dropped |
| PortUtils.FirstFreeIsLeast | port_utils.py:29-45 | the reference search finds the least available port of the range, and none iff none is available |
| PortUtils.Range | port_utils.py:41 | the ports `lo`..`hi` in increasing order |
| PortUtils.FindFreePort | port_utils.py:29-45 | probes the ports in increasing order and returns the reference result; every probe before the last was unavailable |
| CheckDependencies.FirstSeparator | check_dependencies.py:103 | the first position where `>=`, `==`, `<` or `>` starts, or the length when there is none |
| CheckDependencies.CutIsFirstSeparator | check_dependencies.py:103 | the four `split(...)[0]` in a row cut the line at its first operator |
| CheckDependencies.PackageNameIsCut | check_dependencies.py:103 | the package name is the stripped text before the first operator |
| CheckDependencies.PackageNameHasNoOperator | check_dependencies.py:103 | the package name contains no `<`, `>` or `==`, and it is a piece of the line |
| CheckDependencies.RequirementsAppend | check_dependencies.py:99-104 | the requirements of consecutive pieces of the file are those of each piece |
| CheckDependencies.SkippedLine | check_dependencies.py:100-101 | a blank or comment line contributes nothing wherever it stands |
| CheckDependencies.RequirementsFromLines | check_dependencies.py:97-104 | every requirement is a stripped, non-blank, non-comment line with its package name, every such line gives one, and there are no more requirements than lines |
| CheckDependencies.ParseRequirements | check_dependencies.py:97-104 | the parsing loop builds exactly those requirements |
| CheckDependencies.Partitioned | check_dependencies.py:110-120 | each requirement is either installed (its name listed) or missing (its spec listed), and the two counts sum to the number of requirements |
| CheckDependencies.Classify | check_dependencies.py:110-120 | the loop builds exactly the installed and missing lists |
| CheckDependencies.NoneFailed | check_dependencies.py:143-160 | no failure is recorded iff every missing spec installs |
| CheckDependencies.InstallAll | check_dependencies.py:143-146 | tries each missing spec once, in order, and returns exactly the ones that failed |
| CheckDependencies.CheckAndInstall | check_dependencies.py:89-165 | true iff the file exists and every requirement is installed or (with auto-install) installs; a missing file is false and an empty one true; installation is tried exactly for the missing specs, and only with auto-install |
| Launcher.StartOrderRanked | start_llm_trainer.py:321 | the start order lists LLM server, middleware, Telegram, SMS, each at its rank |
| Launcher.Configure | start_llm_trainer.py:249-263 | afterwards a service is required iff it was and its credentials are present; flags are only lowered |
| Launcher.ConfigureInitial | start_llm_trainer.py:46-80 | with the declared flags the configuration check changes nothing |
| Launcher.DecideRules | start_llm_trainer.py:326-363 | a service is recorded iff its start is reached and its process survives the delay; the launcher aborts iff it is required and its port is taken or its start fails |
| Launcher.RecordedBetweenMeaning | start_llm_trainer.py:323-359 | the recorded services are exactly those whose decision is to record, in start order |
| Launcher.StartFromCompletes | start_llm_trainer.py:323-363 | the start loop completes iff no service aborts, and then the table gains the recorded services |
| Launcher.StartFromAborts | start_llm_trainer.py:344-363 | an aborted loop stops at the first aborting service, having recorded the ones before it |
| Launcher.StartPlan | start_llm_trainer.py:316-363 | from an empty table: abort iff some required service has a busy port or fails to start, at the first such one; the table holds, in start order, exactly the recorded services before the stop |
| Launcher.SurvivorsMembers | start_llm_trainer.py:422-432 | exactly the services not found dead survive a sweep |
| Launcher.SweepMeaning | start_llm_trainer.py:422-432 | a sweep completes iff no required service is dead, keeping the live ones in order; a crash names a dead required service |
| Launcher.MonitorMeaning | start_llm_trainer.py:407-437 | monitoring only removes services and never a required one unless it exits on that one's death; a crash names a required service found dead; stopping leaves the table empty |
| Launcher.CheckHttpService | start_llm_trainer.py:99-105 | healthy iff the GET answered 200 or 404 |
| Launcher.LlmTrainerProcessRule | start_llm_trainer.py:120-132 | a process belongs to the system iff its command line was read and some argument, lower-cased, contains one of the four script names |
| Launcher.ContainsAcrossSpace | start_llm_trainer.py:123 | a script name (no spaces) occurs in the space-joined line iff it occurs in one argument |
| Launcher.LauncherState.constructor | start_llm_trainer.py:46-83 | the declared flags and an empty process table |
| Launcher.LauncherState.CheckConfiguration | start_llm_trainer.py:235-270 | the flags become `Configure` of the old flags; the table is unchanged |
| Launcher.LauncherState.StartAllServices | start_llm_trainer.py:316-363 | the outcome and table are those of the start plan from the old table |
| Launcher.LauncherState.SweepTable | start_llm_trainer.py:422-432 | one pass over a snapshot of the table deletes dead optional services and stops at a dead required one |
| Launcher.LauncherState.MonitorServices | start_llm_trainer.py:407-440 | the outcome and table are those of the monitoring plan over the rounds |

## Left out

- The HTTP calls to Ollama, CEREBRUM, OpenRouter, Twilio and Telegram, and the health probes, are oracles: function-typed parameters or per-call scripts. Timeouts and retries are not modelled.
- Threads are not modelled. The training thread, the polling thread and webhook background handling are run inline. `time.sleep` is dropped. "Another thread lowers the flag" is a scripted event.
- SQLite failures other than the primary-key violation (locked or missing files, disk errors) are not modelled. Timestamps are an input `now`. `ORDER BY timestamp` is taken to be the insertion order, which holds while clock readings do not go backwards.
- `PyText.Lower` and case-insensitive matching cover ASCII letters only. Python also folds other Unicode letters.
- SmsService.NormalizePhoneNumber: `PyText.Digits` keeps `0`-`9` only. Python's `\D` on a `str` also keeps other Unicode decimal digits (such as Arabic-Indic or fullwidth ones), which then count towards the ten-digit test and end up in the result; the model does not capture those inputs.
- The message-formatting helpers (welcome, registered, updated, help, cleared, error texts) are symbolic reply constructors. Their wording is not modelled.
- The statistics and status endpoints (`get_statistics`, `/sms/status`, `/telegram/status`, `/api/status`, the health checks) only read and report. `close()` is not modelled.
- `is_package_installed`, `install_package`, `find_process_on_port`, `kill_process`, `cleanup_existing_processes` and `cleanup_on_exit` call pip, psutil or subprocess. They are oracles or left out. Process termination is the outcome of the operation that exits.
- `load_config`, `.env` loading, `print_status`, `print_urls` and `main` of the launcher do file I/O and printing only.
- `start_service` is an oracle whose result is Died or Alive(healthy). In the source the health check only prints.
- The launcher's own `check_dependencies`, and the context files `start_all_servers.py`, `start_training.py` and `conversation_orchestrator.py`, are not part of this model.
- Launcher.LauncherState.StartAllServices: the credentials are read once per run. The source reads the environment again in the start loop, and the model assumes it has not changed since the configuration check.
- SmsService.TruncateSms: the Twilio call itself and its exceptions are not modelled.
- TelegramServer.TelegramBot.PollingLoop: a failed `get_updates` call, or an exception the loop catches, is modelled as an empty batch. The five-second back-off is dropped.

## Findings

| source | as written | input that shows it | evidently intended | confidence | as-written member | corrected member |
|---|---|---|---|---|---|---|
| telegram_server.py:280-282 | `handle_command` passes `/setname …` back to `process_telegram_message`, which sees the leading `/` and calls `handle_command` again, until Python's recursion limit raises `RecursionError`; the outer `except` then sends the error text | the message `/setname Alice` from any chat, by webhook or by polling | `/setname <name>` registers the name, as the help text and `parse_name_command`'s second pattern say | high (not executed) | TelegramServer.SetNameNeverRegisters | TelegramServer.SetNameRegisters |
