# telegram-manager-bot: the application form, the store and the configuration checks

This project models the part of the consultation-request bot that carries its own logic:

- **The form** (`handlers.py`). A user fills it in over a conversation:
  - the button or the text "Оставить заявку";
  - a name, a phone number and a topic;
  - a summary;
  - then "Да, отправить" to submit or "Нет, начать заново" to start again.
- **The store** (`database.py`). It is the `applications` table with its `AUTOINCREMENT` ids and `"YYYY-MM-DD HH:MM"` timestamps.
- **The configuration checks** (`main.py`). These are the offline bot-token format check, the bot id shown at start-up, and the parsing of the comma-separated `ADMIN_IDS` setting.

Everything is a pure function over immutable values. The outside world enters as an `Oracle` per message, which carries:

- the clock reading;
- whether the database write succeeds;
- per admin, whether the notification is delivered.

The modules follow the program:

| module | what it holds |
|---|---|
| `Wrappers` | `Option` and `Result` |
| `Text` | the Python string built-ins the bot relies on |
| `Database` | `init_db`, `add_application`, the timestamp format, SQLite's id choice |
| `Settings` | the `main.py` string checks |
| `Handlers` | the form's states, the router's order and the handlers themselves |
| `FormProperties` | what one message does, and the invariants each step keeps |
| `Walks` | whole conversations, and many conversations sharing one store |
| `Scenarios` | concrete conversations with the keyboard buttons |

One message in one conversation is `Handlers.Step`. It works in two stages:

1. It classifies the text the way the filters do: the two `Command` filters, and `text.lower().strip()` compared with the three phrases.
2. It applies the handler the router picks. aiogram tries handlers in registration order:
   - `/start`, then `/help`;
   - the start-form phrase, in every state;
   - the handlers of the current state. At the confirmation question these are tried as yes, no, then anything else.

`Walks.Run` folds `Step` over a conversation. `Walks.DispatchAll` feeds interleaved messages from many chats to per-chat sessions that share one store. This matches aiogram's `MemoryStorage`, which is keyed by chat and user.

Two behaviours of the code are easy to misread:

- **The collected data is not cleared on a restart.** Neither the start-form phrase (`handlers.py:40`) nor "нет, начать заново" (`handlers.py:119`) clears it; both only set the state. A new walk still submits only the new answers, because each step overwrites its own field (`Walks.RestartWalk`, `Scenarios.RestartedApplication`).
- **`add_application` accepts empty strings.** The table only forbids NULL, so the store checks nothing beyond that.

## Model

| member | source | states |
|---|---|---|
| Text.Strip | main.py:207 | `strip()` removes exactly the whitespace at both ends: the result is a slice with only whitespace around it and none at either end |
| Text.StripUnique | main.py:207 | any slice with only whitespace around it and none at its ends is what `strip()` returns |
| Text.StripIgnoresPadding | handlers.py:38 | surrounding whitespace does not change what `strip()` returns |
| Text.NormIgnoresPadding | handlers.py:38 | `text.lower().strip()` is unchanged by extra whitespace around the text, so a padded button text still matches its phrase |
| Text.LowerCharKeepsSpace | handlers.py:38 | lower-casing neither creates nor removes whitespace, so lowering before stripping strips the same characters |
| Text.NormHead | handlers.py:38 | the first character of the normal form is the lower-cased first visible character of the text |
| Text.Lower | handlers.py:38 | `str.lower()` character by character, over ASCII letters and the Cyrillic capitals; `LowerCharKeepsSpace` states that it maps whitespace to whitespace and nothing else to whitespace |
| Text.Norm | handlers.py:38 | `text.lower().strip()`, the normal form every phrase filter compares; `NormIgnoresPadding`, `NormHead` and `Handlers.ClassifyPhrases` state what it keeps and what it decides |
| Text.IndexOf | main.py:26 | the first `':'` of the token: no earlier `':'`, and the end of the text exactly when there is none |
| Text.Split | main.py:207 | `split(sep)` yields at least one piece and no piece contains the separator |
| Text.JoinSplit | main.py:207 | joining the pieces of a split with the separator gives back the original text |
| Text.SplitJoin | main.py:207 | splitting a join of separator-free pieces gives back exactly those pieces |
| Text.SplitAtSeparator | main.py:207 | a split cuts at the first separator and continues on the rest |
| Text.SplitHead | main.py:148 | `split(':')[0]` is the text before the first `':'` |
| Text.TakeWord | handlers.py:12 | the leading word a command filter reads is the longest run of non-whitespace at the start of the text |
| Database.Pad | database.py:24 | a zero-padded field has exactly the requested width and only digits |
| Database.ValueOfPad | database.py:24 | reading a zero-padded field back gives the number that was written |
| Database.PadOfValue | database.py:24 | every run of digits is the zero-padded form of its own value |
| Database.FormatTimestamp | database.py:24 | the stored datetime has 16 characters, '-' at 4 and 7, ' ' at 10, ':' at 13, and digits everywhere else |
| Database.ParseFormat | database.py:24 | every clock reading formats to a text that reads back as the same reading, so distinct minutes give distinct texts |
| Database.FormatParse | database.py:24 | every text that reads as a valid reading is exactly that reading's formatting |
| Database.MaxId | database.py:11 | the result bounds every id and is either 0 or one of the ids, so it is the largest id, and 0 for an empty table |
| Database.InitDb | database.py:9-17 | after `init_db` the table exists; an existing table keeps its rows and sequence |
| Database.InitDbIdempotent | database.py:9-17 | running `init_db` twice is the same as running it once |
| Database.AddApplication | database.py:21-30 | saving succeeds exactly when the table exists, the write goes through and ids are not exhausted; it then appends one row holding the arguments verbatim and the formatted time, leaves earlier rows unchanged, and uses an id above every earlier id and the sequence |
| Database.AddApplicationKeepsInv | database.py:11 | on a consistent table the new id is one past `sqlite_sequence` and the table stays consistent |
| Database.IdsUnique | database.py:11 | no two rows of a consistent table share an id |
| Settings.CheckTokenFormat | main.py:22-29 | an empty token or one without ':' is refused first; otherwise the token is well formed exactly when the text before the first ':' is a non-empty run of digits, and that text is the bot id |
| Settings.ValidateToken | main.py:20-46 | an empty token or one without ':' is refused without an API call; a token that passes the format check but not aiogram's `Bot` constructor (whitespace anywhere, or nothing after the ':') raises instead of returning; any other verdict calls the API exactly for a well-formed token and is valid exactly when the API accepts it |
| Settings.BotAcceptsToken | main.py:31 | the token check of aiogram's `Bot` constructor: no whitespace, a ':', digits before it and text after it; `ValidateToken` states that a format-checked token failing it raises |
| Settings.TokenReachesApi | main.py:26-35 | a digit bot id, ':' and a non-empty whitespace-free secret reach the API, and its answer is the verdict |
| Settings.EmptySecretRaises | main.py:22-31 | a digit bot id followed only by ':' passes the format check and then makes the `Bot` constructor raise |
| Settings.SpaceInSecretRaises | main.py:22-31 | a well-formed token with whitespace after the ':' passes the format check and then makes the `Bot` constructor raise |
| Settings.SecretIsIrrelevant | main.py:26 | only the first ':' separates the id, so anything after it, more ':' included, does not change the verdict |
| Settings.DisplayedBotId | main.py:148-162 | `split(':')[0]`, the bot id shown at start-up for each token; `DisplayedIdIsCheckedId` states it is the prefix the format check accepted |
| Settings.DisplayedIdIsCheckedId | main.py:148 | the bot id shown at start-up, `split(':')[0]`, is the prefix the format check accepted |
| Settings.KeepNonBlank | main.py:207 | the kept pieces are exactly the non-empty ones, in their original order, each non-empty text as often as it occurs |
| Settings.StripKeepsCommaFree | main.py:207 | stripping a piece of a comma split leaves it comma-free |
| Settings.ParseAdminIds | main.py:205-207 | an empty setting gives no ids; every id is non-empty, stripped and comma-free; the ids are exactly the non-blank stripped pieces in input order, each as often as it occurs |
| Settings.ParseJoinedAdminIds | main.py:205-207 | writing clean ids as a comma-separated list and parsing it gives back exactly those ids in order |
| Handlers.PhraseIsNotCommand | handlers.py:12 | a text whose normal form is a phrase not starting with '/' is never a command |
| Handlers.PhraseFacts | handlers.py:38 | the three phrases are distinct and none starts with '/' |
| Handlers.PhrasesAreNotCommands | handlers.py:12-38 | a text matching any of the three phrases passes neither command filter |
| Handlers.ClassifyPhrases | handlers.py:38 | each phrase is recognised exactly when the normal form equals it, and text is plain exactly when its classification is |
| Handlers.RoutePrecedence | handlers.py:12-131 | the router picks each handler exactly under its filters and registration order: commands first, then the start-form phrase in any state, then the current state's handlers, yes before no before anything else |
| Handlers.IsCommand | handlers.py:12-23 | aiogram's `Command` filter: the first word is '/' and the command, with an optional mention that must name this bot; `PhraseIsNotCommand` and `PhrasesAreNotCommands` state that no phrase passes it |
| Handlers.Route | handlers.py:12-131 | the handler the router picks in registration order; `RoutePrecedence` states each handler's exact condition |
| Handlers.Step | handlers.py:10-131 | one message in one conversation: the picked handler applied to the text; `FormProperties.StepClassified` states it, and `FormProperties.StepKeepsInvariants` and `FormProperties.StepFollowsTable` state what every step keeps |
| Handlers.CmdStart | handlers.py:12-21 | `cmd_start` sends the welcome and touches neither state nor data; `FormProperties.CommandsKeepSession` states this in every state |
| Handlers.CmdHelp | handlers.py:23-29 | `cmd_help` sends the help text and touches neither state nor data; `FormProperties.CommandsKeepSession` states this in every state |
| Handlers.StartApplicationForm | handlers.py:38-41 | sets the name state without clearing the data and asks for the name; `FormProperties.FormTriggerFromAnyState` states this from every state |
| Handlers.ProcessName | handlers.py:43-47 | stores the text as the name, moves to the phone question and asks for it; `FormProperties.HandlePlain` and `FormProperties.CollectStepStoresVerbatim` state this |
| Handlers.ProcessPhone | handlers.py:49-53 | stores the text as the phone, moves to the topic question and asks for it; `FormProperties.HandlePlain` and `FormProperties.CollectStepStoresVerbatim` state this |
| Handlers.ProcessTopic | handlers.py:55-71 | stores the topic, shows the summary and moves to confirmation; without a stored name or phone the summary's KeyError ends it with the topic stored, the state kept and no reply. `FormProperties.HandlePlain` states both paths, and `FormProperties.HandleKeepsForm` states that a consistent form never takes the second |
| Handlers.ProcessConfirmationYes | handlers.py:73-115 | saves the collected answers, then thanks the user and notifies the admins; a failed save or a missing answer gives the error reply instead; either way the context is cleared and the closing hint sent. `FormProperties.ConfirmSubmits`, `FormProperties.FailedSaveNotifiesNobody` and `FormProperties.SavedEffects` state these paths |
| Handlers.ProcessConfirmationNo | handlers.py:117-120 | sets the name state without clearing the data and asks again; `FormProperties.RejectRestarts` states it |
| Handlers.ProcessConfirmationInvalid | handlers.py:122-131 | repeats the button hint and changes nothing; `FormProperties.OtherTextAtConfirmationWaits` states it |
| Handlers.NotifyEach | handlers.py:92-97 | one send per admin in list order, a failed send not stopping the loop; `FormProperties.NotifyEachAttempts` and `FormProperties.NotifyEachReachesAll` state it |
| Handlers.Notifications | handlers.py:83-103 | the notification block, run only with a notification token and at least one admin; `FormProperties.SavedBlock` states it |
| FormProperties.NotifyEachAttempts | handlers.py:92-97 | the loop makes one attempt per admin, in list order, each with its own reported outcome; a failed send does not stop it |
| FormProperties.NotifyEachReachesAll | handlers.py:92-97 | the chats notified are exactly the admin list, in order |
| FormProperties.HandlePlain | handlers.py:43-131 | plain text is stored verbatim under the current state's key and moves one state on, is ignored when idle, and gets the button hint at the summary; at the topic question without a stored name or phone the topic is stored, the state kept and nothing sent |
| FormProperties.HandleFormTrigger | handlers.py:38-41 | the start-form phrase reaches `start_application_form` whatever the state |
| FormProperties.HandleConfirm | handlers.py:73-74 | "да, отправить" at the summary reaches `process_confirmation_yes` |
| FormProperties.HandleRestart | handlers.py:117-118 | "нет, начать заново" at the summary reaches `process_confirmation_no` |
| FormProperties.StepClassified | handlers.py:38 | a step is the handler run on the filters' verdict, and the verdict recognises each phrase exactly when the normal form equals it |
| FormProperties.FormTriggerFromAnyState | handlers.py:38-41 | from any state the start-form phrase moves to the name question, keeps the data and the store, and asks for the name |
| FormProperties.CommandsKeepSession | handlers.py:12-29 | `/start` and `/help` reply in every state and change neither the state, the data nor the store |
| FormProperties.CollectStepStoresVerbatim | handlers.py:43-71 | name, phone and topic are stored verbatim under their keys, each moves exactly one state on, and the summary shows exactly the stored values |
| FormProperties.IdleIgnoresText | handlers.py:43-55 | with no state set, plain text reaches no handler and changes nothing |
| FormProperties.ConfirmIsProcessed | handlers.py:73-74 | a text normalising to "да, отправить" at the summary is handled by `process_confirmation_yes` |
| FormProperties.ConfirmSubmits | handlers.py:73-115 | confirming appends exactly one row holding the collected name, phone and topic and keeps the earlier rows, or on a failed save leaves the store and replies with the error; either way the context ends cleared |
| FormProperties.FailedSaveNotifiesNobody | handlers.py:105-110 | when the save fails, or a field is missing, no notification is attempted, the store is unchanged and the error reply is sent |
| FormProperties.SavedEffects | handlers.py:78-115 | a successful confirmation replies with thanks, then the notification block, then the closing hint |
| FormProperties.SavedBlock | handlers.py:83-97 | the block between thanks and closing hint notifies only with a token and at least one admin, and then every admin once, in order, with the application's details |
| FormProperties.SavedNotifiesEachAdmin | handlers.py:83-97 | after a successful save every admin is attempted exactly once, in list order, right after the thanks, only when token and admin list are non-empty |
| FormProperties.RejectRestarts | handlers.py:117-120 | "нет, начать заново" goes back to the name question, keeps the data and writes nothing |
| FormProperties.OtherTextAtConfirmationWaits | handlers.py:122-131 | any other text at the summary gets the button hint and changes neither state, data nor store |
| FormProperties.GrowsKeepsRowsPlain | database.py:25-29 | appending a row of plain text to rows of plain text keeps all rows plain |
| FormProperties.HandleFollowsTable | handlers.py:38-131 | every handler follows the form's transition table, and each state change has its own trigger |
| FormProperties.StepFollowsTable | handlers.py:38-131 | every message follows the table: back to the name question only on the phrases, to idle only on confirmation, forward only on plain text |
| FormProperties.PlainUpdate | handlers.py:45-57 | storing plain text under any key keeps every stored field plain |
| FormProperties.HandleKeepsForm | handlers.py:43-71 | every field the state relies on is present, idle means empty data, and every stored value is plain text; each handler keeps this |
| FormProperties.StepKeepsForm | handlers.py:38-131 | every message keeps those invariants, so the start-form phrase and the commands are never stored as an answer |
| FormProperties.HandleStore | handlers.py:77 | only the confirmation handler touches the store |
| FormProperties.ConfirmKeepsStore | handlers.py:75-77 | the confirmation handler keeps the table consistent and at most appends one row of collected plain text |
| FormProperties.HandleKeepsStore | handlers.py:38-131 | every handler keeps the table consistent and at most appends one plain row |
| FormProperties.StepKeepsStore | handlers.py:38-131 | every message keeps the table consistent and at most appends one plain row |
| FormProperties.StepKeepsInvariants | handlers.py:38-131 | every message keeps the form invariants and the table's consistency, and appends at most one plain row |
| FormProperties.ConfirmAssignsNextId | handlers.py:77 | a confirmed application gets the id one past the last one handed out |
| Walks.TraceFollowsTable | handlers.py:31-35 | every state a conversation visits is reached from the previous one by a transition of the table |
| Walks.Run | main.py:233-251 | the messages of one conversation handled one after the other; `Walks.RunAppend`, `Walks.RunKeepsInvariants` and `Walks.RunFollowsTable` state what it composes and keeps |
| Walks.RunFollowsTable | handlers.py:31-35 | the visited states start at the initial state, end at the final one and follow the table |
| Walks.ExtendsTrans | database.py:25-29 | a store that keeps every row of one that kept every row of a third keeps every row of the third |
| Walks.ReplayKeepsInvariants | handlers.py:38-131 | over any conversation the invariants hold, the table stays consistent, and every earlier row is kept, with at most one new row per message |
| Walks.RunKeepsInvariants | handlers.py:38-131 | the same for conversations as the filters classify them: the store only grows, by at most one row per message |
| Walks.ReplayAppend | handlers.py:10 | handling two stretches of messages one after the other is handling their concatenation |
| Walks.RunAppend | handlers.py:10 | a conversation split in two parts ends where the whole one does, with the effects of both parts in order |
| Walks.SubmittedRow | handlers.py:77 | a successful submission appends exactly the row of submitted values under the next id; a failed one keeps the store |
| Walks.ReplayFromName | handlers.py:43-77 | name, phone, topic and confirmation from the name question reply with the next question each time and then submit exactly those answers |
| Walks.FreshWalk | handlers.py:38-115 | from any state and whatever data is on file, the start-form phrase, three plain answers and the confirmation submit exactly those answers and end cleared |
| Walks.RestartWalk | handlers.py:117-120 | after rejecting the summary a new walk submits only the new answers, although the old ones were never cleared |
| Walks.WalkToSummary | handlers.py:38-71 | the start-form phrase and three plain answers reach the summary with exactly those answers on file and the store untouched |
| Walks.Dispatch | main.py:233-234 | a message changes only its own conversation's session |
| Walks.RunSessionIgnoresStore | handlers.py:73-115 | where a conversation ends does not depend on the store's contents |
| Walks.DispatchAll | main.py:233-251 | updates from many conversations handled in arrival order against one store, each in its own session; `Walks.SessionsIndependent` and `Walks.DispatchAllKeepsInv` state it |
| Walks.SessionsIndependent | main.py:233-234 | however chats interleave, each conversation ends where its own messages alone would take it |
| Walks.DispatchKeepsInv | main.py:233-234 | one message from any chat keeps every session's invariants and the table's consistency |
| Walks.DispatchAllKeepsInv | main.py:233-251 | however chats interleave, every session keeps the invariants, and the shared store keeps its rows and grows by at most one per message |
| Scenarios.StartButtonMatches | handlers.py:14 | pressing the start button sends text that matches the start-form phrase |
| Scenarios.ConfirmButtonMatches | handlers.py:66 | the "Да, отправить" button matches the confirmation phrase |
| Scenarios.RestartButtonMatches | handlers.py:66 | the "Нет, начать заново" button matches the restart phrase |
| Scenarios.PlainShort | handlers.py:38 | short text starting with a visible character other than '/' reaches the per-state handlers and is neither answer to the summary |
| Scenarios.FirstApplication | database.py:9-29 | on a freshly created table, filling in the form with the buttons stores one row with id 1 holding exactly the answers, and clears the conversation |
| Scenarios.RestartedApplication | handlers.py:117-120 | a summary rejected and filled in again stores only the second answers, with id 1 |
| Scenarios.HesitantConfirmation | handlers.py:122-131 | another answer at the summary only brings the button hint; the confirm button then still submits the answers on file |

## Left out

- The Telegram Bot API is outside the model, and so is the start-up display. This covers `get_me`, `get_chat`, `send_message`, session closing, keyboards and reply markup. A send's outcome and the `get_me` verdict are oracle inputs.
- `main.py:163` is not modelled. It lets the notification bot reuse the main bot's display name, and only affects the console.
- Python's `lower()` is covered only for ASCII letters and the Cyrillic capitals U+0400–U+042F; every other character is left unchanged. `isdigit()` is covered only for ASCII digits.
- Database.FormatTimestamp: pads years below 1000 to four digits. glibc's `strftime("%Y")`, which Python uses on Linux, writes such years without padding. Those years are not reachable from a real clock. The wall clock itself is a parameter, ranging over the readings Python's `datetime` can hold.
- Failures outside the table are not modelled: the SQLite connection, the commit and the file system appear only as the oracle's "write succeeds" flag.
- A failure of the user reply at `handlers.py:78` is not modelled. Replies are infallible outputs; a failing reply would enter the error branch after the row was already stored.
- The notification bot's construction (`handlers.py:84`) and closing (`handlers.py:101`) are assumed to succeed, because the token was validated at start-up.
- The interactive configuration is not modelled: prompting, `config.ini` reading and writing, and the re-request loop. They are I/O-driven. A missing or `None` notification token is modelled as the empty token; the handler only tests whether the token is truthy.
- The exit that follows `ConstructorRaised` is not modelled. The exception leaves `validate_token` at `main.py:31`, passes through `request_token_interactive` or `load_or_request_config`, and ends `main`; the model only reports it.
- `Settings.BotAcceptsToken` restates `validate_token` from aiogram 3's `aiogram/utils/token.py`, which the `Bot` constructor calls. The rest of aiogram is not part of this model.
- `main.py:202` is not modelled. It stops the bot when the user-facing token is empty.
- The bot id in the admin message is kept as an opaque string in `BotConfig`. aiogram derives it from the token.
- Messages without text are not modelled; every modelled message carries text. In the code, the state-only filters of `process_name`, `process_phone`, `process_topic` and `process_confirmation_invalid` (`handlers.py:43`, `49`, `55`, `122`) accept any message, a sticker, a photo or a shared contact included. The first three store `None` as the answer (`handlers.py:45`, `51`, `57`), the summary shows "None", and at confirmation the insert breaks the NOT NULL columns (`database.py:12-14`), so the user gets the save-error reply. aiogram's `Command` filter also reads a photo's caption.
- Logging is not modelled: the `logging.info`, `logging.warning` and `logging.error` calls at `handlers.py:95-106` only write to the log.
- Concurrency is not modelled. Updates are handled one after another, in arrival order, against one shared store.
