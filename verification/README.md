# AmritAI core in Dafny

A model of the logic of AmritAI, a single-file Streamlit chat assistant
(`main.py`), and proofs about that model. It covers four parts of the assistant:

- **Slash-command dispatcher.** One chat input is appended to the
  conversation, classified as `/clear`, `/secret`, `/convert`, `/list`,
  `/todo`, `/web` or plain chat, and answered. A post-response step then
  titles a new chat and saves it.
- **Local tools.** These are the unit-pair choice of `convert_units`,
  the to-do list and `list_tasks`.
- **History store.** One JSON document maps each username to saved chat
  sessions and custom bots. It covers `load_all_history`,
  `save_current_chat`, `save_custom_bots`, `delete_chat_session`,
  `get_user_sessions` and `load_user_bots`.
- **Persona.** This is the time-of-day greeting, the system prompt,
  the filter applied to a generated chat title, and the custom-bot builder.

Modules, one file each:

| file | module | contents |
|---|---|---|
| `common.dfy` | `Common` | `Option`, message roles, `Message`, `Bot` |
| `text.dfy` | `Text` | the Python `str` operations the logic relies on: `strip`, `lower`, `startswith`, `in`, `replace(p, '')`, `split('\n')`, `'\n'.join`, `str(n)` |
| `history.dfy` | `History` | the store as `map<Username, UserRecord>` and its operations |
| `commands.dfy` | `Commands` | classification of one input |
| `tools.dfy` | `Tools` | `/convert` branch choice and reply, `/todo`, `list_tasks` |
| `persona.dfy` | `Persona` | greeting, system prompt, chat titles, bot builder |
| `chat.dfy` | `Chat` | session state, one chat input (`Turn`), sidebar actions (`Step`) |

Each operation of the source first loads the whole history file, and
one that changes something ends by writing all of it back.
`get_user_sessions` and `load_user_bots` only read, and a failed
`delete_chat_session` writes nothing (main.py:72-100). In the model, an operation takes the
loaded `Store` and returns the new one. `LoadAllHistory` reads a parse
outcome, and `Dump` gives the document written.

Everything the source gets from outside arrives in a `World` value:
- the completion and search services;
- the `/convert` regular expression and `float()`;
- the number formatting;
- the clock.

Each call of a service function is returned as a `Call`. A `SearchCall`
marks the call of `search_web`, even when it returns "⚠️ Tavily Key
Missing" without contacting the service (main.py:204). A `TitleCall`
marks the title request, which is not made when no API key is set
(main.py:162). An uncaught exception
ends the Streamlit run. The model marks this as `raised`, keeps the
state as it was at that point, and writes nothing.

Four behaviours of the code are easy to misread, and the model keeps
them as written:
- `/secret` with the right code replies "🔥 Subscriber Mode ON!" but
  never sets `is_subscriber_mode` (main.py:421-426). The flag therefore
  stays off for the whole session, and `Chat.SubscriberNeverOn` proves it.
- A rejected generated title becomes "Chat on " plus the first word of
  the opening message (main.py:173-174). The clock title "Chat-HH:MM:SS"
  is used only when the request fails, or when that message has no word
  and the resulting `IndexError` is caught.
- On the first chat screen after the first login of a browser
  session, the bot selector shows
  "AmritAI (Default)" unless the user has a bot named "AmritAI". That
  differs from the active name "AmritAI", so the switch of main.py:266-279
  runs before the first input. The chat then starts over as "New Chat
  with AmritAI (Default)" under a new session id (`Chat.Start`).
- `/clear` saves the chat but keeps `current_session_id`
  (main.py:414-419). The next answered input saves the new conversation
  under the same id (main.py:521, 526) and so overwrites the chat that
  `/clear` had just saved, although the help text at main.py:377 says
  the chat is saved (`Chat.ClearedChatOverwritten`).

## Model

| member | source | states |
|---|---|---|
| History.LoadAllHistory | main.py:24-39 | a missing or unreadable file loads as the empty store; otherwise every user is kept, present `sessions`/`custom_bots` values are untouched and missing ones become empty |
| History.Dump | main.py:41-44 | the document written has one entry per user, each with both the `sessions` and `custom_bots` keys |
| History.LoadDump | main.py:24-44 | writing a store and reading the document back gives the same store |
| History.SaveCurrentChat | main.py:46-61 | the session is inserted or overwritten with the title, the save time and the messages; an unknown user is created with no bots; the user's other sessions, the bots and every other user are unchanged |
| History.SaveThenReload | main.py:46-61 | after saving, writing and reloading, the session is present with exactly the saved title, time and messages |
| History.SaveChatKeepsBots | main.py:46-61 | saving a chat never changes any user's bots |
| History.SaveCustomBots | main.py:63-70 | the user's bot list is replaced (the user is created if absent) and nothing else changes |
| History.LoadUserBots | main.py:95-100 | an unknown user has no bots; a known user's bots are the list in their record, which loading always supplies |
| History.SavedBotsLoad | main.py:95-100 | the bots loaded for a user after saving are exactly the saved list, and other users' bots are unaffected |
| History.DeleteChatSession | main.py:72-79 | deletion succeeds exactly when the user has that session, and then removes that one session and nothing else |
| History.GetUserSessions | main.py:81-93 | an unknown user has no sessions; otherwise every session is listed exactly once with its title, newest first |
| History.PickNewest | main.py:91 | the session picked has no newer session among those still to be listed |
| History.NewestListedFirst | main.py:91-92 | a session strictly newer than all others heads every listing |
| History.SavedChatListedFirst | main.py:81-93 | a chat saved later than every earlier save heads the listing afterwards, with its new title |
| Commands.Classify | main.py:414-454 | `/secret`, `/todo` and `/web` carry the stripped text after the 7-, 5- and 4-character command word of the original input |
| Commands.ClassifyRules | main.py:414-453 | each command is selected exactly when the lower-cased input equals `/clear` or `/list`, or starts with its command word; plain chat exactly when none applies |
| Commands.ClassifyIgnoresCase | main.py:414-453 | inputs equal up to ASCII case select the same command |
| Commands.ClassifyTodoList | main.py:441-442 | `/todolist` in any case adds the task `list` instead of listing |
| Commands.ClassifyListExact | main.py:435 | any text after `/list` makes the input plain chat |
| Commands.ClassifyClearExact | main.py:414 | any text after `/clear`, even a single space, makes the input plain chat |
| Tools.SelectConversion | main.py:219-225 | the `IndexError` branch is reached only with an empty unit word; a converting branch needs a first unit starting with `k` or `c` |
| Tools.SelectConversionCases | main.py:219-225 | mass for `k…`/`l…`, temperature for `c…`/`f…`, distance for `k…`/`m…`, the error text when an indexed unit word is empty, otherwise unsupported; both directions |
| Tools.SelectConversionFirstLetters | main.py:219-225 | only first letters count and case matters: `KG to LBS` is not supported, `cat to fish` is temperature |
| Tools.ConvertReply | main.py:428-433 | no match gives "Format Error."; each branch gives its fixed text, or a reply that starts with its label and the value and contains the converted figure and unit |
| Tools.AddTask | main.py:441-447 | a non-empty task is appended at the end and confirmed; an empty one is refused and the list is unchanged |
| Tools.ListTasks | main.py:227-229 | the "no tasks" reply is given exactly when the list is empty |
| Tools.ListTasksLines | main.py:227-229 | for tasks without line breaks, the listing splits into the header and one line per task, line i+1 numbered i+1 and holding task i |
| Tools.TaskLineNumber | main.py:229 | the number on each line reads back as the task's 1-based position |
| Tools.AddTaskExtendsListing | main.py:227-229 | adding a task appends exactly one line to the listing and leaves the earlier lines unchanged |
| Persona.DayPartOf | main.py:109-113 | each named bucket is chosen exactly for its range of hours, night wrapping around midnight |
| Persona.IstHour | main.py:105-107 | the hour in India is the UTC hour plus 5, or plus 6 from the half hour, modulo 24 |
| Persona.Greeting | main.py:104-115 | the greeting starts with the salutation of the hour's bucket |
| Persona.DayPartCoversDay | main.py:109-113 | an hour falls in one of the four named buckets exactly when it is in 0..23 |
| Persona.GreetingNeverFallsBack | main.py:104-113 | no real time of day reaches the "Hello" fallback |
| Persona.SystemPrompt | main.py:140-151 | an active bot's prompt replaces the persona; otherwise the base persona is used, extended only in subscriber mode |
| Persona.SubscriberOnlyWithoutBot | main.py:140-151 | the subscriber flag changes the prompt exactly when no bot prompt is active, by appending the suffix |
| Persona.GenerateChatTitle | main.py:155-180 | fewer than two messages keep "New Chat"; without an API key the title is "Error: GROQ_KEY Missing"; a failed request gives "Chat-" and the clock |
| Persona.AcceptedTitleIsPrefix | main.py:171-175 | an accepted title is the cleaned reply cut to its first 30 characters |
| Persona.RejectedTitleIsFallback | main.py:173-174 | a rejected title is the fallback built from the opening message |
| Persona.FallbackTitle | main.py:173-174 | the fallback is "Chat on " and the first word without slashes, or the clock title when the message has no word |
| Persona.CleanTitleIsClean | main.py:171-172 | the cleaned title holds no quote characters, no `**` and no line break |
| Persona.AcceptedTitleShape | main.py:171-175 | an accepted title has 3 to 30 characters, is a prefix of the cleaned reply and is clean |
| Persona.RejectedTitleFallsBack | main.py:173-174 | a rejected title becomes "Chat on " and the slash-free first word of the opening message, or the clock title |
| Persona.CreateBot | main.py:287-301 | a bot is refused exactly when a field is empty or the name is taken; otherwise it is appended |
| Persona.CreateBotKeepsNamesUnique | main.py:291-294 | the builder never creates a second bot of the same name |
| Text.Strip | main.py:422 | the result has no surrounding whitespace and is empty exactly when the input is all whitespace |
| Text.StripOf | main.py:422 | stripping whitespace + trimmed core + whitespace gives the core, so `Strip` is fixed by its contract |
| Text.FirstLine | main.py:172 | the first line holds no line break, is a prefix, and is followed by a line break or the end |
| Text.FirstWord | main.py:174 | a first word exists exactly when the text is not all whitespace; it is non-empty, has no whitespace, follows only whitespace, and ends at whitespace or the end |
| Text.FirstWordUnique | main.py:174 | any word placed that way is the first word, so the contract determines `FirstWord` |
| Chat.LoggedIn | main.py:118-136 | after the first login of a browser session the chat is empty, titled "New Chat", under "AmritAI" with no bot prompt, subscriber mode off, and the user's saved bots |
| Chat.ShownOption | main.py:257-264 | the selector shows the active name when it is an option, and the default entry otherwise |
| Chat.Start | main.py:257-279 | the first chat screen of a browser session keeps "New Chat" under "AmritAI" only when the user has a bot of that name; otherwise it switches to "AmritAI (Default)" with a new id and the title "New Chat with AmritAI (Default)" |
| Chat.ToolPromptText | main.py:483-493 | for any context and query, the instruction is the fixed preamble, the opening marker, the indented context, the closing marker, an empty line, the labelled query and the indented closing line |
| Chat.ToolPromptCarriesSearch | main.py:483-493 | for any context and query, the context sits between the two markers and the text ends with the labelled query |
| Chat.ToolPromptCarriesContext | main.py:483-493 | for any context and query, the instruction's lines are the preamble's, the opening marker, the lines of the indented context, the closing marker, an empty line, the lines of the labelled query and the closing indentation |
| Chat.GroundedCallSends | main.py:483-496 | the search-grounded request puts the search instruction, as a system message, in front of the whole conversation; it holds the context between the markers and ends with the query |
| Chat.WebReply | main.py:469-504 | the search is always the first request; a failure text is shown as it is, "No results found" gives the fixed notice, otherwise the completion asked with the grounded request is the reply |
| Chat.AfterReply | main.py:514-526 | a chat titled "New Chat…" with more than one message gets the generated title, after the title request unless no key is set; any other chat keeps its title; the conversation is always saved with the resulting title |
| Chat.AnsweredRetitles | main.py:514-521 | an answered input in a "New Chat…" chat takes the title generated from the whole conversation; without an API key that is the error title, which is never retitled again |
| Chat.Dispatch | main.py:406-526 | handling an input as any command keeps the user, the subscriber flag, the bots, the active bot and the session id |
| Chat.Respond | main.py:414-508 | exactly `/clear` clears; exactly a number `float()` rejects raises; only `/todo` touches the tasks |
| Chat.Turn | main.py:406-526 | the empty input is skipped and changes nothing; any other input is acted on; no input changes the user, the subscriber flag, the bots, the active bot or the session id |
| Chat.DispatchAnswered | main.py:406-526 | an answered input adds the user message and the reply, keeps the branch's requests, and saves the conversation |
| Chat.TurnSavesExchange | main.py:406-526 | the empty input changes nothing; every other completed input except `/clear` grows the conversation by the input and one reply, and the store holds it under the session id, leaving other users alone |
| Chat.SecretTurn | main.py:421-426 | the reply is the acceptance text exactly when the stripped code is `chiku03`, else the wrong-code text; tasks and the subscriber flag are unchanged |
| Chat.SecretReply | main.py:421-426 | the same for a given code |
| Chat.TodoTurn | main.py:441-450 | a non-empty stripped task is appended and confirmed; an empty one is refused with the tasks unchanged |
| Chat.TodoReply | main.py:441-450 | the same for a given task |
| Chat.ClearedChatOverwritten | main.py:414-526 | after `/clear`, the next answered input saves a two-message conversation under the same id, replacing the chat `/clear` saved |
| Chat.ClearTurn | main.py:414-419 | the conversation including `/clear` is saved under the old title, then messages are emptied and the title reset; tasks are kept and no service is asked |
| Chat.ClearReply | main.py:414-419 | the same for the clear command |
| Chat.EmptyWebQueryIsLocal | main.py:453-460 | `/web` without a query replies locally and asks neither search nor completion |
| Chat.WebSearchesFirst | main.py:453-504 | `/web` with a query searches first; on usable results the grounded completion over the whole conversation is asked and answers |
| Chat.ChatTurnAsksCompletion | main.py:508-512 | plain chat asks the completion with the system prompt in front of the whole conversation, and its answer is the reply |
| Chat.BadNumberRaises | main.py:428-433 | a number the pattern accepts but `float()` rejects ends the run with the input appended and nothing saved |
| Chat.FindBot | main.py:272 | the bot found is the first one with the selected name; none is found only when no bot has it |
| Chat.Step | main.py:264-364 | no sidebar action or chat input changes the user or the subscriber flag |
| Chat.Run | main.py:244-526 | no sequence of interactions changes who is logged in |
| Chat.SubscriberNeverOn | main.py:421-426 | after any sequence of interactions from login, subscriber mode is still off, so without a bot the system prompt is the plain persona |
| Chat.BuildBotSaves | main.py:283-301 | building a bot keeps names distinct, appends the bot and saves the whole list, which then loads back unchanged |
| Chat.SelectBotPrompt | main.py:266-279 | switching bots starts an empty chat titled for the new bot; the default option removes the bot prompt, a named bot installs its prompt |
| Chat.LoadChatRestores | main.py:337-347 | loading a saved chat restores its messages, title and id |

## Left out

- The Streamlit page is not modelled: rendering, `st.rerun`, spinners, `time.sleep`, the commands help box, and the temporary `/web` "Searching…" message.
- The login form and logout (main.py:234-242, 384-390) are not modelled as actions. The model starts from the state the first login of a browser session leaves (`Chat.LoggedIn`) and its first chat screen (`Chat.Start`).
- A later login in the same browser session is not modelled. Logout resets only `user_name`, `messages` and `active_bot_name` (main.py:387-389), so such a login keeps `tasks`, `current_session_id`, `current_session_title` and `active_bot_prompt` from before. `Chat.LoggedIn` and `Chat.Start` describe only the first login.
- `get_groq_response` (main.py:182-200) is HTTP streaming. Its joined text is the `World.completion` input, including the warning text it yields when the key is missing and any network-error text.
- `search_web` (main.py:202-217) calls the Tavily service. Its returned text is the `World.searchContext` input.
- The title request's HTTP exchange and JSON decoding are not modelled. Its outcome is `Persona.TitleReply`: no key, failure (any status other than 200 or an exception), or the returned text.
- The `/convert` regular expression and `float()` are not modelled. Their result is `Tools.ConvertMatch`.
- Tools.ConvertReply: states the label, the value and the figure with its unit, not the computed figure. The conversions (×2.204, ×9/5+32, ×0.621) are floating point, and the two-decimal text is the `World.figure` input.
- JSON encoding of the history file is not modelled. The document is `History.HistoryFile`, and the round trip is stated by `History.LoadDump`.
- History.GetUserSessions: does not fix the order of sessions with equal timestamps. Python's sort is stable and keeps the file's order for ties. Timestamps are an abstract ordered key: the source compares the text of `datetime.now()`, which sorts chronologically.
- `datetime.utcnow()` and `datetime.now()` are not modelled. The UTC hour and minute, the save time, the `HH:MM:SS` clock and new session ids are inputs.
- Text.Lower: lower-cases ASCII letters only. Two other characters lower-case to text with an ASCII letter. The Kelvin sign becomes `k`, and no command word or placeholder title contains `k`. The capital dotted I (U+0130) becomes `i` followed by U+0307, the only lowering that changes the length. No command word or placeholder contains U+0307, so the comparison fails in Python exactly when it fails in the model. Classification and the placeholder test are therefore unaffected.
- Selecting a past chat by title (main.py:318-333) is not modelled: with duplicate titles the selectbox picks the first id. `Chat.Step`'s `LoadChat` and `DeleteChat` take the id directly.
- The 30-character limit on a bot's name is a property of the input widget, so it is not modelled.
- The bot builder's success message says the bot was activated and the history cleared, but the code does neither. Only the code's effect is modelled.
- Concurrent browser sessions are not modelled. Each operation reads and rewrites the whole file, and two sessions interleaving can lose updates.
- Messages flagged `is_image` only change how they are displayed, so they are not modelled.
