# FEELIX bot: a verified model of its conversation and entitlement core

FEELIX is a Telegram companion bot for students. This project models its core in Dafny:
- Each user's conversation history is sent to a hosted language model.
- When the history's total length exceeds `MAX_CHAR_LIMIT` (2000 characters), it is summarised and reseeded.
- A summary opens a 24-hour lockout for users without a premium subscription.
- New users first choose a gender. The menu buttons (premium information, feedback, clear history, read feedback, add premium) are dispatched ahead of the chat path.
- The manager grants 30-day premium subscriptions.

Around this core sit several smaller pieces:
- a survey recorder that sends users rating questions through inline buttons and records the answers per survey;
- a maintenance script that rewrites the persona prompt in stored conversations;
- the parser for the admin id list;
- the reply extraction of the optional local model.

Layout, one module per file:

- `wrappers.dfy` (`Wrappers`): `Option`, `Result` and dictionary `get`.
- `text.dfy` (`Text`): the Python string built-ins the code relies on.
  - `str.strip()` over the `isspace` characters.
  - `split` and `join` with a one-character separator.
  - first-occurrence search, which is what `split(sep, maxsplit=1)` cuts at.
  - `int()` on a decimal string (sign, digits, single underscores) and `str()` of an integer.
  - `startswith` and `lower()`.
- `config.dfy` (`Config`): the `ADMIN_USER_ID` comprehension and `MAX_CHAR_LIMIT`.
- `ledger.dfy` (`Ledger`): the pure part of `add_message` and `summarize_conversation`, covering the history, its size, the transcript and the reseeded history.
- `handlers.dfy` (`Handlers`): the handlers.
  - A `World` value holds `user_states`, `PREMIUM_USERS`, and the history, gender, feedback and archive stores.
  - Every handler is a step function on it.
  - The `Bot` class holds the same state in mutable fields. Its methods mirror the source's statements, and each method's postcondition says the new state and reply are exactly the step function's.
  - The lemmas state the gate, dispatch and ledger properties on the step functions.
- `metric.dfy` (`Metric`): the survey files as nested maps, the pure survey logic, and a `MetricStore` class for `current_surveys.json` and the metric files. Its callback also updates the `Bot`'s `user_states`.
- `replace_sys_prompt.dfy` (`PromptRewrite`): the rewrite loop over an `array` and the directory scan over a map of log entries.
- `local_model.dfy` (`LocalModel`): reply extraction and the loaded guard.

Time is an integer number of seconds, passed to each handler as `now`. Each handler reads one clock value.

The language-model gateway is a pair of function parameters:
- `complete` maps the stored history to a reply;
- `upstream` maps the transcript to a summary.

Both return `Answer`, `HttpError` or `OtherError`.

`SYSTEM_PROMPT`, `MANAGER_USER_ID` and `ADMIN_USER_ID` are the bot's `Settings`. `MANAGER_USER_ID` is imported by the handlers but is not defined in bot/config.py, so it is a parameter.

Two behaviours of the code are modelled as written:
- The daily-limit notice in `get_groq_response` is sent only when an `update` is passed. `handle_text` never passes one, so the lockout a summary opens is recorded in `user_states` but never announced on the message path. Because bot/main.py wires `handle_text` directly, the gate that would deny later messages does not run there either. `ChatStep` keeps the `withUpdate` flag and `HandleTextStep` passes `false`.
- bot/main.py registers `handle_text` and not `handle_text_with_limit`. The gate is modelled as the separate operation `HandleTextWithLimit`.

## Model

| member | source | states |
|---|---|---|
| Text.Strip | bot/config.py:10 | the result is a slice `s[i..j]` of the input with only whitespace before `i` and after `j`; it has no whitespace at either end, and it is empty exactly when the input is all whitespace |
| Text.StripIdempotent | bot/config.py:10 | stripping twice is stripping once |
| Text.JoinSplit | bot/config.py:10 | joining the pieces of a one-character split gives back the string |
| Text.SplitJoin | bot/config.py:10 | splitting a join of separator-free pieces gives back the pieces, in order |
| Text.ParseDecimal | bot/config.py:10 | `int(str(n)) == n` for every integer |
| Text.FindFrom | bot/local_model.py:121 | the result is the first index at or after the start where the pattern occurs; no earlier index matches |
| Config.IdPieces | bot/config.py:10 | the kept pieces are stripped and non-empty, and there are no more of them than input pieces |
| Config.IdPiecesOne | bot/config.py:10 | one piece is kept, stripped, exactly when it does not strip to nothing |
| Config.IdPiecesConcat | bot/config.py:10 | the filter works piece by piece: the kept pieces of a concatenation are those of each part, in order and with duplicates |
| Config.AdminIdsPadded | bot/config.py:10 | padded ids with an empty piece between them, `" x ,,y"`, give `[x, y]` |
| Config.ParseAll | bot/config.py:10 | a result has one integer per piece, each the piece's `int()`; there is no result exactly when some piece is not an integer |
| Config.AdminIdsUnset | bot/config.py:10 | an unset or empty variable gives the empty admin list |
| Config.IdPiecesFailure | bot/config.py:10 | parsing the kept pieces fails exactly when some piece is non-blank and not an integer |
| Config.AdminIdsFailure | bot/config.py:10 | `ADMIN_USER_ID` cannot be parsed exactly when some comma-separated piece is non-blank and not an integer |
| Config.AdminIdsRoundTrip | bot/config.py:10 | a comma-joined list of ids parses back to the same list, order and duplicates kept |
| Ledger.TotalCharsConcat | bot/handlers.py:119 | the history size is additive over concatenation |
| Ledger.TotalCharsItems | bot/handlers.py:113-119 | the appended entries weigh exactly the lengths of the appended texts |
| Ledger.HistoryTextLines | bot/handlers.py:64 | the transcript splits back into one `role: content` line per message when no content holds a newline |
| Ledger.ReseededShape | bot/handlers.py:126-130 | the reset history is all system messages: the prompt, a gender hint exactly when a gender other than "Не хочу указывать" is set, and the summary note last |
| Ledger.ReseededSize | bot/handlers.py:126-130 | the size of the reset history is the prompt, the hint and the prefixed summary |
| Ledger.AddMessagesThreshold | bot/handlers.py:113-140 | it summarises exactly when the old size plus the new texts' lengths is strictly over `MAX_CHAR_LIMIT`; otherwise the history is the old one followed by the new entries in order; when it summarises, the history is the reseeded one |
| Ledger.OversizedMessageSummarizes | bot/handlers.py:119-123 | a single text over the limit triggers a summary |
| Ledger.FailedSummaryStillResets | bot/handlers.py:94-132 | when the summariser fails, the history still resets and ends with one of the two fixed failure texts |
| Ledger.ResetIsStable | bot/handlers.py:119-140 | adding nothing to a reset history that fits the limit changes nothing and does not summarise |
| Handlers.MainMenu | bot/handlers.py:202-220 | the three fixed buttons come first; "Получить отзывы" appears exactly for an admin and "Добавить Premium пользователя" exactly for the manager |
| Handlers.SummaryLocksOnlyNonPremium | bot/handlers.py:123-140 | after a summary a non-premium user's `last_summary` is `now`, with their other flags and every other user kept; a premium user's state and any call that did not summarise leave `user_states` untouched; no other store changes |
| Handlers.ChatFailureKeepsUserMessage | bot/handlers.py:150-200 | a failed gateway call returns the apology, sends no notice and keeps the stored user message; without a summary the history is the old one plus that message |
| Handlers.ChatSuccessStoresBoth | bot/handlers.py:150-191 | a successful call returns the gateway's text, computed from the history ending with the user message; without a summary both messages end the history in order and `user_states` is untouched |
| Handlers.PurgeExpiredExact | bot/handlers.py:535-539 | a premium entry survives the purge exactly while `now` is at or before its end; other entries are untouched |
| Handlers.PremiumStatusBounds | bot/handlers.py:462-477 | an active subscription reports the days and hours left, each rounded down, with hours below 24; an expired one had `now` strictly after its end |
| Handlers.AddPremiumGrant | bot/handlers.py:495-515 | the manager's grant for any argument that `int()` reads as `t` (`str(t)`, `" 007"`, `"+7"`) sets `t`'s expiry to `now` + 30 days, replacing any earlier expiry; another caller gets no rights; a missing or non-integer argument leaves `PREMIUM_USERS` unchanged |
| Handlers.RouteChatExactly | bot/handlers.py:310-396 | a message reaches the model exactly when the user is neither choosing a gender nor leaving feedback and the text is no menu button (the add-premium label counts only for the manager) |
| Handlers.RouteFeedbackFirst | bot/handlers.py:318-332 | a user waiting for feedback has their text recorded as feedback even when it is a button |
| Handlers.ClearHistoryEndsLockout | bot/handlers.py:356-367 | clearing the history removes `last_summary` and the stored history; premium, gender and the other users' state are kept |
| Handlers.GateDenyExactly | bot/handlers.py:541-566 | the gate denies exactly a non-premium user whose last summary is less than 86400 s old; it clears the key exactly when the summary is at least that old; a denial reports hours below 24 and minutes below 60 that give the remaining time rounded down to the minute |
| Handlers.GenderOnboarding | bot/handlers.py:527-533 | while choosing a gender, any text other than the three answers only asks again and changes nothing; an answer stores the gender and clears the flag; both entry points behave the same |
| Handlers.StartAsksGender | bot/handlers.py:264-266 | after `start`, a text that is not a gender answer is met with the gender question and nothing else happens |
| Handlers.PremiumReachesHandleText | bot/handlers.py:535-542 | a user still premium after the purge always reaches `handle_text`, whatever their `last_summary` |
| Handlers.LockoutBlocksEverything | bot/handlers.py:544-556 | a locked-out user is denied for every text, menu buttons included; only the premium purge happens |
| Handlers.ExpiredLockoutCleared | bot/handlers.py:557-564 | once the last summary is a day old, the key is removed and the message is handled as if no lockout existed |
| Handlers.Bot.constructor | bot/handlers.py:45-50 | `user_states` starts empty and the other stores are as saved |
| Handlers.Bot.AppendAll | bot/handlers.py:113-115 | the loop yields the old history followed by one entry per text, in order, adding exactly the texts' lengths to the size |
| Handlers.Bot.NewHistory | bot/handlers.py:126-130 | the history built after a summary is the reseeded history |
| Handlers.Bot.AddMessage | bot/handlers.py:105-140 | the new state and result are exactly `AddMessageStep` of the old state |
| Handlers.Bot.GetGroqResponse | bot/handlers.py:142-200 | the new state and reply are exactly `ChatStep` of the old state |
| Handlers.Bot.Start | bot/handlers.py:264-266 | the user's `choosing_gender` is set and nothing else changes |
| Handlers.Bot.HandleGenderChoiceInner | bot/handlers.py:432-451 | the choice is stored, the flag is cleared, and the reply names the lowered choice for the two genders |
| Handlers.Bot.HandlePremiumSubscription | bot/handlers.py:453-485 | the expired entry is purged and the reply is the user's subscription status |
| Handlers.Bot.AddPremiumUser | bot/handlers.py:487-515 | the new state and reply are exactly `AddPremiumStep` |
| Handlers.Bot.ArchiveUserHistory | bot/handlers.py:357 | the stored history moves to the archive; nothing else changes |
| Handlers.Bot.ClearUserHistory | bot/handlers.py:356-367 | the new state is `ClearHistoryStep` of the old one |
| Handlers.Bot.StoreFeedback | bot/handlers.py:318-332 | the feedback line is appended to the feedback file and the waiting flag is cleared |
| Handlers.Bot.AskForFeedback | bot/handlers.py:346-354 | only the user's waiting flag is set |
| Handlers.Bot.HandleText | bot/handlers.py:297-408 | the new state and reply are exactly `HandleTextStep`, the ordered dispatch |
| Handlers.Bot.HandleTextWithLimit | bot/handlers.py:517-566 | the new state and reply are exactly `HandleTextWithLimitStep`, the gate |
| Metric.SurveyCompleteExactly | bot/metric.py:78-86 | an entry is complete exactly when q1..q4 are all answered; another key neither completes nor spoils it |
| Metric.CancelledSpec | bot/metric.py:98-104 | cancelling keeps every survey, removes the user's entry exactly where it is incomplete, keeps complete entries and every other user, and leaves nothing pending |
| Metric.CancelNothingPending | bot/metric.py:98-106 | with nothing pending, cancelling changes nothing, so skipping the save loses nothing |
| Metric.CancelPending | bot/metric.py:97-104 | the loop's data is `Cancelled`, and `changed` holds exactly when something was pending |
| Metric.ParseCallback | bot/metric.py:242-246 | callback data is accepted exactly when it splits into five parts |
| Metric.CallbackRoundTrip | bot/metric.py:242-246 | button data for a metric and survey id without a pipe character splits into five parts that give back the metric, survey, question and choice |
| Metric.Row | bot/metric.py:122-144 | one button per choice, each carrying that choice's callback data |
| Metric.QuestionAndKeyboard | bot/metric.py:109-148 | a keyboard exists exactly for q1..q4, with one button per choice, each carrying the callback data for that choice |
| Metric.KeyboardRoundTrip | bot/metric.py:122-144 | every survey button parses back to its own metric, survey, question and choice; q1..q3 offer five choices and q4 two |
| Metric.QuestionsFrom | bot/metric.py:152-157 | the chain starts with the given question |
| Metric.QuestionChain | bot/metric.py:152-157 | following `QUESTION_ORDER` from q1 asks q1, q2, q3, q4 and stops, so answering every question asked completes the entry |
| Metric.RecordAnswerSpec | bot/metric.py:260-268 | the choice is stored, creating missing levels and replacing an earlier answer; every other answer, user and survey is kept |
| Metric.FollowUps | bot/metric.py:278-302 | q1..q3 lead to the next question; q4 leads to the feedback request for "отправить" and to the thank-you otherwise |
| Metric.Invited | bot/metric.py:208-211 | no id invited is 0, and there are no more ids than users |
| Metric.InvitedMembers | bot/metric.py:208-211 | every present, non-zero user id is invited, and every invited id is a present, non-zero user id |
| Metric.CancelEachKeeps | bot/metric.py:194-212 | cancelling for every invited user keeps the survey ids and leaves the newly created survey empty |
| Metric.CancelEachKeepsComplete | bot/metric.py:208-212 | a complete entry survives every cancellation |
| Metric.MetricStore.constructor | bot/metric.py:18-27 | the store starts with the saved current surveys and metric files |
| Metric.MetricStore.CancelPendingSurveys | bot/metric.py:89-106 | the file is rewritten to the cancelled data only when something was pending; the loaded data is the cancelled data either way |
| Metric.MetricStore.StartMetrics | bot/metric.py:177-218 | only the manager with a metric name starts a survey; only that metric's current survey id changes; the metric gets the new empty survey, and each invited user's pending entries are cancelled |
| Metric.MetricStore.MetricsCallback | bot/metric.py:242-302 | malformed or stale callback data changes nothing; otherwise the answer is recorded, `waiting_for_feedback` is set exactly for q4 "отправить", and the follow-up is `FollowUpOf` |
| PromptRewrite.FirstSystem | bot/replace_sys_prompt.py:39-40 | the index is of a system message; no earlier message is a system message, or none is when there is no index |
| PromptRewrite.RewrittenSpec | bot/replace_sys_prompt.py:39-43 | the length and every message other than the first system message are kept; that message's content becomes the prompt and its other fields are kept; no system message means no change |
| PromptRewrite.RewrittenIdempotent | bot/replace_sys_prompt.py:39-43 | rewriting twice is rewriting once |
| PromptRewrite.FirstSystemStable | bot/replace_sys_prompt.py:39-43 | the rewrite does not move the first system message |
| PromptRewrite.FirstSystemIs | bot/replace_sys_prompt.py:39-43 | a system message with none before it is the first |
| PromptRewrite.RewriteFirstSystem | bot/replace_sys_prompt.py:38-43 | the array becomes the rewritten conversation, and `updated` holds exactly when a system message exists |
| PromptRewrite.UpdatedLogsSpec | bot/replace_sys_prompt.py:20-53 | entries that are not `user_*` directories with a history, unreadable, non-list or empty files, and conversations without a system message are kept; in a rewritten entry only the history file changes |
| PromptRewrite.UpdatedLogsIdempotent | bot/replace_sys_prompt.py:20-53 | running the script twice gives the same logs as running it once |
| PromptRewrite.RewriteLogEntry | bot/replace_sys_prompt.py:21-53 | one entry becomes `RewriteEntry`, and it is written back exactly when it is rewritten |
| PromptRewrite.UpdateSystemPromptInLogs | bot/replace_sys_prompt.py:20-53 | the resulting logs are `UpdatedLogs`, and the files written are exactly the rewritten entries |
| LocalModel.ExtractReply | bot/local_model.py:119-127 | the reply has no surrounding whitespace and is no longer than the decoded text |
| LocalModel.ExtractAfterFirst | bot/local_model.py:121-123 | with the first "assistant" after a given prefix, the reply is the stripped rest |
| LocalModel.ExtractWithoutMarker | bot/local_model.py:124-125 | without "assistant" the reply is the whole text, stripped |
| LocalModel.ExtractKeepsLaterMarker | bot/local_model.py:121 | a second "assistant" stays in the reply |
| LocalModel.Model.constructor | bot/local_model.py:9-10 | neither the model nor the tokenizer is loaded |
| LocalModel.Model.InitLocalModel | bot/local_model.py:30-44 | when both are loaded it returns at once with nothing changed; without a GPU it exits with nothing changed; otherwise both are loaded |
| LocalModel.Model.GetLocalModelResponse | bot/local_model.py:79-127 | it fails while either is unset; otherwise it returns the extracted reply of the generation |

## Left out

- The HTTP calls to the gateway and the cycling of API keys: they are the `complete` and `upstream` function parameters. A malformed response body falls into the same error outcome as any other exception.
- Telegram transport: replies, documents, keyboards as UI objects, typing simulation and sleeps. Replies are the `Reply` data, and every send is modelled as succeeding.
  - A failed `reply_text` propagates to `error_handler` and ends the handler. The model does not capture the state changes this skips: setting `choosing_gender` in `start` (bot/handlers.py:241 before 264-266), clearing `waiting_for_feedback` after the thanks (328 before 331), and removing `last_summary` after the history is cleared (359 before 364-365).
  - A failed `reply_document` on the read-feedback button is caught and answered with an error text (bot/handlers.py:377-388). `SendFeedbacks` always gives the success reply.
- Message texts other than those the logic compares or stores: help, greeting, premium prose, limit notices and survey confirmations.
- The gender question itself (`ask_user_gender`): it has no state effect, so it is the `AskGenderReply` reply.
- File I/O: JSON load and save, the feedback file and the history files. They are in-memory maps.
  - The feedback file stores the user id and the text, without the timestamp and username line format.
  - A read or write error in the rewrite script is an `Unreadable` entry or is not modelled.
  - A missing logs directory only prints a message.
- `save_user_info`, `log_message` and `hash_data`: logging and hashing with no effect on the modelled state.
- The utils history, gender and premium helpers are not part of this model. They are plain maps, and a missing history reads as empty.
- `archive_user_history` (called at bot/handlers.py:357) is not part of this model. `ArchiveUserHistory` assumes it appends the stored history to an archive list and removes the user's entry. `ClearHistoryEndsLockout`'s empty history after clearing rests on that assumption.
- In the rewrite script a conversation is a list of string dictionaries (`Msg`). A list element that is not a dictionary makes `msg.get` raise an uncaught `AttributeError` (bot/replace_sys_prompt.py:40), which stops the script before the remaining entries. The model does not capture this.
- `strftime` formatting of dates and survey ids. The survey id is a parameter of `StartMetrics`.
- Floating-point `total_seconds()`: the clock is in whole seconds, and `timedelta.seconds` is the remaining time modulo 86400.
- `int()` on non-ASCII digits, and `lower()` beyond ASCII and the basic Cyrillic block: the bot only lowers its own gender labels.
- The subscriber file of `start_metrics` is a list of optional integer ids. An entry that is not a dictionary, or a non-integer `user_id`, is not modelled.
- `give_metrics`, `help_command`, `error_handler`, bot/main.py, bot/database.py, bot/logging_config.py: registration, logging and foreign libraries outside the core.
- Model and tokenizer loading and text generation in bot/local_model.py: the GPU check is a flag, `sys.exit` is the `NoGpu` outcome, and generation with decoding is a function parameter.
- Concurrency and `nest_asyncio`: each handler is one sequential step.
- The gender-choice step requires a `user_states` entry for the user, because the source indexes it directly. Both callers guarantee that entry.
