# MindMate request core, modelled in Dafny

MindMate is a Flask wellbeing companion backed by SQLite. This project models
three parts of it.

The chat turn of `chat_with_ai` works in this order:
- It strips the message.
- It checks the message for crisis phrases and, if one occurs, gives a fixed reply.
- Otherwise it asks the remote completion service for a reply.
- If that call fails, it answers from a keyword fallback table.
- It logs the turn, falling back on a generated conversation id when none is usable.

The write handlers for moods, journal entries, breathing sessions and settings validate their bodies and apply defaults.

The database layer covers:
- the four append-only tables, with AUTOINCREMENT ids and insertion timestamps;
- the settings upsert;
- the mood history window and the journal listing, both newest first;
- the dashboard mood counts;
- the idempotent table creation.

It also models the smaller stand-alone mood tracker in `nothing4.py`: a keyword chat bot with a chat log, a mood log, and the mood listing.

Modules:
- `Strings`: Python's `str.strip`, `str.lower` and `in` on strings, plus decimal rendering.
- `Json`: an absent body key, and `str()` of a JSON scalar.
- `Ordering`: `ORDER BY … DESC` as a stable insertion sort, plus sums.
- `Tables`: an append-only table with its id counter and `WHERE timestamp >= …`.
- `Database`: `database.py`, with the database as the class `Store`.
- `App`: the `app.py` handlers.
- `MoodTracker`: `nothing4.py`, with the class `Tracker`.

How the environment is represented:
- **Clock:** time is an integer number of seconds (`now`). `clockText` stands for the formatted clock used in generated conversation ids.
- **Fresh id:** `freshId` stands for `str(uuid.uuid4())`.
- **Remote service:** its answer is the parameter `remote`, which is either a failure or a returned message whose content may be absent.

## Model

| member | source | states |
|---|---|---|
| Strings.Strip | app.py:75 | the result is the input minus its leading and trailing whitespace, no more and no less: it is the infix starting after the leading whitespace, it neither starts nor ends with whitespace, and everything cut off is whitespace |
| Strings.Lower | app.py:83 | same length; each upper-case ASCII letter becomes its lower-case letter (code point + 32) in the same place, every other character stays where it was, so no upper-case letter is left |
| Strings.Contains | app.py:83 | Python's `key in text`: an occurrence needs a key no longer than the text; `ContainsInfix` and `ContainsExtend` give its infix and extension laws |
| Strings.StripEmptyIffBlank | app.py:75-77 | a message strips to nothing exactly when every character is whitespace (the condition for "Message cannot be empty") |
| Strings.AnyOccurs | app.py:83 | true exactly when some key occurs as an infix of the text |
| Strings.FirstHit | app.py:132-138 | the index of the first table key occurring in the text: that key occurs and no earlier key does |
| Strings.FirstHitIsFirst | nothing4.py:45-48 | if key i occurs and no earlier key does, the scan stops at i; if no key occurs, it runs off the end |
| Strings.NatToStringRoundTrip | app.py:253-256 | for a non-negative number, its decimal rendering reads back as the same number |
| Strings.IntToStringRoundTrip | app.py:247-256 | for every integer, negative ones included (the handler accepts negative durations and cycle counts), its rendering with a leading '-' when negative reads back as the same integer |
| Json.PyStr | app.py:344-345 | `str()` of a string value is the string itself; null, booleans and numbers become non-empty text |
| Ordering.SortDesc | database.py:155 | the result is a permutation of the input whose keys never increase |
| Ordering.SortDescSum | database.py:193 | ordering the groups does not change any sum over them |
| Tables.Table.Insert | database.py:84-91 | the row is appended with an id larger than every id issued before; ids stay positive, at most the counter and strictly increasing |
| Tables.Since | database.py:154 | every row stamped at or after the cutoff occurs in the result exactly as often as in the table, and no other row occurs |
| Database.StoredConversationId | database.py:116-117 | a non-empty id is kept; a missing or empty id becomes "conv_" followed by the clock text; the result is never empty |
| Database.TallyCorrect | database.py:189-192 | GROUP BY mood_type gives one group per mood present, each counting that mood's rows, and the counts add up to the number of rows |
| Database.MoodCounts | database.py:188-194 | a reordering of the tally whose counts never increase (ORDER BY count DESC); MoodCountsCorrect states what the groups hold |
| Database.MoodCountsCorrect | database.py:188-196 | the same facts after ORDER BY count DESC, whose counts never increase |
| Database.Lookup | database.py:242-246 | the stored value when the key has a row; a result other than the default means the key has a row |
| Database.Upsert | database.py:229-232 | the key set gains the written key; the key's row holds the new value and time; every other row is kept |
| Database.UpsertLaws | database.py:224-245 | a key reads back as its last written value; other keys read back as before |
| Database.UpsertOverwrites | database.py:229-232 | writing a key twice leaves only the second write (INSERT OR REPLACE on the unique key) |
| Database.Store.InitDatabase | database.py:10-77 | table creation keeps every row and setting; a second call changes nothing |
| Database.Store.LogMood | database.py:79-93 | appends exactly one mood row with the given columns and returns its new, larger id; other tables are unchanged |
| Database.Store.SaveJournalEntry | database.py:95-109 | appends exactly one journal row and returns its id; other tables are unchanged |
| Database.Store.LogChatConversation | database.py:111-128 | appends exactly one chat row whose conversation id is the stored one; other tables are unchanged |
| Database.Store.LogBreathingSession | database.py:130-144 | appends exactly one breathing row and returns its id; other tables are unchanged |
| Database.Store.UpdateUserSetting | database.py:224-234 | the settings table becomes the upsert of the key; no other table changes |
| Database.Store.GetUserSetting | database.py:237-245 | the stored value of the key, or the default when the key has no row |
| Database.Store.GetMoodHistory | database.py:146-162 | for days ≥ 0, every mood row stamped at or after now − days·86400, as often as it is stored and nothing else, newest first; for a negative days (a modifier SQLite rejects) no rows; a days value so large that SQLite's cutoff date is out of range is not modelled (see Left out) |
| Database.Store.GetJournalEntries | database.py:164-180 | min(limit, row count) journal rows (all rows for a negative limit), newest first, none older than a row left out |
| Database.Store.GetMoodStatistics | database.py:182-222 | mood_counts over the 30-day window as in MoodCountsCorrect; total_entries and total_breathing_sessions are the table sizes |
| App.IsCrisis | app.py:82-83 | true exactly when one of the six crisis phrases occurs in the lowercased message |
| App.IsCrisisCaseBlind | app.py:82-83 | the crisis test gives the same answer for a message and its lowercase form |
| App.CrisisReplyNamesContacts | app.py:86-93 | the crisis reply contains the text line, the 988 lifeline and 911 verbatim |
| App.Fallback | app.py:124-141 | the fallback reply is never empty and is the generic reply or one of the five canned replies |
| App.FallbackFirstMatch | app.py:132-138 | the reply of the first keyword present wins, in the order stressed, anxious, sad, happy, tired |
| App.FallbackDefault | app.py:140-141 | with no keyword present the generic reply is given |
| App.StressedComesFirst | app.py:124-138 | a message containing "stressed" gets the stressed reply whatever else it contains |
| App.TurnReply | app.py:85-141 | a crisis message gets the crisis reply; otherwise a failed remote call gives the keyword fallback for the message, returned non-empty content gives that content stripped, and absent or empty content gives the empty-response apology; every reply is a canned text or the stripped returned text |
| App.CrisisIgnoresRemote | app.py:85-102 | on the crisis path the reply is the crisis reply whatever the remote service does |
| App.TurnReplyEmptyIff | app.py:104-120 | a reply is empty exactly when the message is not a crisis and the remote service returned non-empty, all-whitespace text |
| App.ChatWithAi | app.py:67-150 | the two 400 errors and when each is raised, with the store untouched; otherwise the reply, the conversation id (the supplied value, JSON null included, else the fresh id) and the crisis flag, with exactly one chat row logged |
| App.ReturnedIdIsLogged | database.py:116-117 | when the returned conversation id is a non-empty string, the logged row carries that same id |
| App.LogUserMood | app.py:155-178 | rejected exactly when mood_type or mood_emoji is missing; otherwise one mood row with intensity defaulting to 5 and notes to "", and the success message naming the mood |
| App.SaveUserJournal | app.py:196-222 | the missing-content and blank-content errors; otherwise one journal row with content and title stripped |
| App.LogUserBreathing | app.py:239-261 | rejected exactly when duration or cycles_completed is missing; otherwise one breathing row with the type defaulting to "4-7-8", and the message quoting cycles and duration |
| App.ApplySettings | app.py:344-345 | the settings after writing every posted item in order; no existing setting is removed |
| App.ApplySettingsKeys | app.py:344-345 | a key has a setting after the POST exactly when it had one before or was posted |
| App.SettingsPostThenGet | app.py:344-345 | after a POST, every posted key reads back as `str()` of its value |
| App.SettingsPostKeepsOthers | app.py:344-345 | after a POST, a key that was not posted reads back as before |
| App.UpdateSettings | app.py:338-352 | rejected exactly when the body is missing or empty; otherwise the settings table is the in-order upsert of every posted item |
| App.GetSettings | app.py:326-334 | the four known settings, each stored value or its default "true", "light", "daily", "Friend" |
| MoodTracker.AiChat | nothing4.py:31-48 | the reply is never empty and is always one of the six canned replies |
| MoodTracker.AiChatFirstMatch | nothing4.py:44-47 | the reply of the first key present wins, in dictionary order |
| MoodTracker.AiChatDefault | nothing4.py:48 | with no key present the default reply is given |
| MoodTracker.GreetingWins | nothing4.py:35-47 | a message containing "hello" gets the greeting whatever mood words it contains |
| MoodTracker.Tracker.Chat | nothing4.py:50-69 | rejected exactly when the message is missing; otherwise the message is logged unstripped with its reply as one chat_logs row |
| MoodTracker.Tracker.LogMood | nothing4.py:73-95 | rejected exactly when the mood is missing; otherwise one mood row and the success message naming the mood |
| MoodTracker.Tracker.Moods | nothing4.py:99-109 | every mood row as (mood, timestamp), each once, newest first |
| MoodTracker.LoggedMoodIsListed | nothing4.py:84-105 | every logged mood appears in the listing with its timestamp |

## Left out

- `avg_intensity` in `get_mood_statistics`: it is a floating-point average with rounding, so only the counts are modelled.
- `Strings.Strip`, `Strings.Lower`: these cover ASCII letters and Python's ASCII-range whitespace only. They do not model Unicode whitespace or non-ASCII case mapping.
- Store faults: a locked or unwritable database, and any exception raised inside a handler, give a 500 response. Neither is modelled.
- JSON values of the wrong type are not modelled, nor are JSON nulls where the model expects a string or a number. Two examples: a numeric `message`, whose `.strip()` raises, and a null `intensity`, which is stored as NULL. Only `conversation_id` carries an explicit null.
- Json.PyStr, App.UpdateSettings: a settings value may be any JSON value, but only null, booleans, integers and strings are modelled. Floats, arrays and objects (whose `str()` is Python's float and container rendering) cannot be posted in the model.
- Request bodies that are not JSON objects (a list, a bare string) are not modelled.
- The `timestamp` fields of the success responses are not modelled, nor is the id column of `user_settings`.
- The remote completion call is not modelled: the system prompt, model, token limit and temperature are all outside it. Only the call's outcome is an input.
- The routes that only read a query string and call a modelled function are not modelled separately. This covers `/api/mood/history` (days default 30), `/api/journal/entries` (limit default 20) and `/api/dashboard/stats`.
- The health, index, static-file and emergency-resource routes return fixed data, so they are not modelled.
- `Database.Store.GetMoodHistory`, `Database.Store.GetJournalEntries`: the order among rows with equal timestamps is not specified, as SQLite leaves it open.
- `Database.Store.GetMoodHistory`: SQLite's date range is not modelled. When `now` minus `days` days falls before Julian day 0 (days above about 2,460,000 at present dates), `datetime('now', '-N days')` is NULL, and from 5,373,485 days on SQLite rejects the modifier. Either way `timestamp >= NULL` is never true and no row is listed, while the model lists every row for any days ≥ 0.
- `Database.Store.LogMood`, `Database.Store.LogBreathingSession`, `Database.Store.GetJournalEntries`, `App.LogUserMood`, `App.LogUserBreathing`: integers are unbounded in the model. SQLite binds only signed 64-bit integers, so an intensity, duration, cycles_completed or limit outside −2^63 .. 2^63−1 raises OverflowError at `cursor.execute`. The handler then answers 500 and stores nothing, while the model stores the row or applies the limit.
- SQLite's `CURRENT_TIMESTAMP` has one-second resolution; the model takes the stamp as given.
- `init_db` in `nothing4.py` runs only when the script is started directly. The model starts the tracker with both tables already created, so a request that finds no tables (answered with a 500) is not modelled.
- `Database.Store.LogChatConversation`: no crisis flag is stored, because the `chat_conversations` table has no such column.
- An error raised while logging a chat turn is not caught in `log_chat_conversation`; it reaches the outer `try` of `chat_with_ai`, which answers 500. Like the other store faults, this path is not modelled.
