# A verified model of the emotion-journal bot's core

The bot is a Telegram diary of emotions. A user is reminded a few times a day at random
minutes inside a personal window. A check-in walks them through a short conversation:
emotion (curated or typed), optional body sensation, reason and note. The entry is stored
and a summary is shown. The diary is paged five entries at a time, and the statistics show
a streak of consecutive days.

This project models that core in Dafny:

- `slots.dfy` (module `Slots`): the arithmetic of `schedule_daily_checks`. The window and
  count become minute offsets, then local slots, then UTC instants. `random.sample` is a
  nondeterministic choice that is constrained only by what Python promises.
- `check_table.dfy` (module `CheckTable`): the `scheduled_checks` table. It is a class
  holding the rows in insertion order and the SERIAL counter, with one method per
  statement of database.py. Pure functions give each statement's result, and lemmas state
  their frame conditions.
- `scheduler.dfy` (module `Scheduler`): the two jobs that drive the table. One plans and
  saves a user's day. The other is the per-minute dispatch pass, which loops over the due
  checks. The messenger is a `Channel` whose sends may or may not be delivered.
- `conversation.dfy` (module `Conversation`): the `EmotionStates` finite-state machine.
  - `Step` is the dispatcher: first-match routing over the registered handlers, with the
    stateless ones reachable from every state.
  - `Session` is one user's FSM context and journal, changed in place.
  - Also here: the summary text that `save_entry_and_finish` shows.
- `diary.dfy` (module `Diary`): the pagination rule of `show_diary`.
- `stats.dfy` (module `Stats`): `_calculate_streak` as a loop, proved against a recursive
  definition, and the time-of-day `CASE`.
- `text.dfy` (module `Text`) and `wrappers.dfy` (module `Wrappers`): Python's `str.strip`
  and integer formatting, and the Option and Result types.

Times are whole minutes from an epoch and dates are day numbers. The wall clocks
(`datetime.now()`, the UTC "now" of the dispatch pass, today's date) are parameters.

## Model

| member | source | states |
|---|---|---|
| Text.TrimMeaning | bot.py:262 | `strip()` returns a contiguous slice of the text that neither starts nor ends with whitespace |
| Text.TrimIdempotent | bot.py:262 | stripping twice is stripping once |
| Text.NatToStringValue | bot.py:507 | `str(n)` of a non-negative integer is canonical decimal and its digits denote `n` |
| Text.IntToString | bot.py:506-507 | the text of the intensity is `-` exactly for a negative value, followed by the canonical decimal digits (no leading zero but in `0`) whose value is the magnitude |
| Slots.RangeFrom | bot.py:808 | `range(lo, stop, step)`: element `i` is `lo + i*step`, every element is below `stop`, and the next value `lo + len*step` would reach `stop`, so no value is missing |
| Slots.TakePrefix | bot.py:808 | `s[:k]` is a prefix of `s`, of length `min(k, len(s))` for `k >= 0` |
| Slots.EvenOffsetsCoverWindow | bot.py:806-808 | when the window has no more minutes than the count, the step is 1 and the offsets are every minute `0..total-1`; none when `end_hour <= start_hour` |
| Slots.RandomSample | bot.py:810 | `random.sample(range(n), k)` raises exactly when `k < 0` or `k` exceeds `len(range(n))`, which is `max(0, n)`, and otherwise returns `k` distinct values in `[0, n)` |
| Slots.Sorted | bot.py:810 | `sorted` returns an ascending permutation, strictly increasing when the input is distinct |
| Slots.SortedSample | bot.py:810 | the sorted sample has `count` strictly increasing offsets inside the window |
| Slots.DrawOffsets | bot.py:805-810 | the offsets: every minute of a small window (ZeroDivisionError for count 0), else `count` sorted distinct minutes of the window (ValueError for a negative count) |
| Slots.SlotInWindow | bot.py:813-817 | offset `m` maps to an hour in `[start_hour, end_hour)` and a minute in 0..59; adding `timezone` hours back to the UTC instant recovers the local slot `start + m` |
| Slots.PlanChecks | bot.py:803-818 | the UTC instants of the day, or the first exception: strictly increasing, each inside the local window once the timezone is added back, `count` of them for a large window, the whole window for a small one, and no exception for a valid window and a positive count |
| CheckTable.WithoutUnsentOf | database.py:297 | the DELETE keeps exactly the rows that are not the user's unsent ones |
| CheckTable.SaveLeavesExactlyNewUnsent | database.py:294-304 | after `save_scheduled_checks(u, times)` the unsent times of `u` are exactly `times`, in order, duplicates kept |
| CheckTable.SaveKeepsOtherUsers | database.py:294-304 | every other user's rows are unchanged by the save |
| CheckTable.SaveKeepsSent | database.py:294-304 | the save keeps all sent rows of `u`, in order |
| CheckTable.SentSurvivesSave | database.py:297 | the DELETE never removes a sent row |
| CheckTable.Due | database.py:327-334 | the pending rows are exactly the unsent rows with `scheduled_time <= now` |
| CheckTable.SetSentFrame | database.py:336-341 | `UPDATE ... SET sent = TRUE` changes only the flag, only of the rows named, never clears it, and keeps the ids in order |
| CheckTable.SetSentCompose | database.py:336-341 | marking sent is idempotent, and marking in two rounds is marking the union |
| CheckTable.MarkChangesOneRow | database.py:336-341 | with distinct ids, `mark_check_sent(id)` changes at most one row |
| CheckTable.MarkingDueConsumesAll | database.py:327-341 | once every pending row is marked sent, nothing is pending any more |
| CheckTable.SkipTodayExact | database.py:315-325 | `skip_today_checks` marks sent exactly the user's unsent rows of today and leaves every other row as it was; none of them is left unsent today |
| CheckTable.ScheduledChecks.SaveScheduledChecks | database.py:294-304 | the table becomes the rows kept by the DELETE followed by one new unsent row per time, with consecutive new ids |
| CheckTable.ScheduledChecks.AddDelayedCheck | database.py:306-313 | exactly one unsent row at `now + delay` is appended and nothing else changes |
| CheckTable.ScheduledChecks.SkipTodayChecks | database.py:315-325 | the table becomes `SkipToday` of the old table |
| CheckTable.ScheduledChecks.GetPendingChecks | database.py:327-334 | returns `(id, user_id)` of exactly the due rows and changes nothing |
| CheckTable.ScheduledChecks.MarkCheckSent | database.py:336-341 | sets the flag of the row with that id and keeps the table's invariant |
| Scheduler.ScheduleDailyChecks | bot.py:803-821 | either raises (with the exception `PlanChecks` names) and writes nothing, or replaces the user's unsent checks with exactly the planned instants: `count` strictly increasing instants inside the window for a large window, every minute of a small one |
| Scheduler.PassStep | bot.py:831-845 | one more due check adds one send, or none when its user was already delivered to |
| Scheduler.PassSendsOnlyToDueUsers | bot.py:831-845 | only users with a due check are sent anything |
| Scheduler.PassStopsAfterDelivery | bot.py:836-844 | once a user is delivered to, the pass sends that user nothing more |
| Scheduler.AtMostOneDeliveryPerUser | bot.py:829-844 | at most one message per user is delivered in a pass |
| Scheduler.UndeliveredUserTriedForEveryCheck | bot.py:836-847 | a user no send reached was sent once for every due check: a failed send does not add them to `users_notified` |
| Scheduler.TwoDueChecksOfOneUser | bot.py:831-847 | two due checks of one user: one message when the first is delivered, two sends when it fails |
| Scheduler.CheckAndSendNotifications | bot.py:824-847 | every due check is marked sent whatever the send's outcome, and the sends are exactly `Pass` over the owners of the due checks |
| Scheduler.DispatchAll | bot.py:831-847 | the loop marks every pending check sent and its sends are exactly `Pass` over the checks' owners |
| Scheduler.DispatchOne | bot.py:831-845 | one iteration: mark the check sent, then send unless its user was already delivered to |
| Conversation.StartCheck | bot.py:240-256 | `start_emotion_check` enters `waiting_for_emotion_input` and resets category, emotion, intensity, body sensation and reason, but not the note |
| Conversation.Commit | bot.py:489-527 | commit stores exactly one entry built from the draft and clears the context; a `None` emotion makes the NOT NULL insert raise and nothing is stored |
| Conversation.SummaryPartsShown | bot.py:504-514 | the summary has the emotion, the intensity exactly when it is not `None` (0 included), and body, reason and note exactly when non-empty |
| Conversation.SummaryPartsInOrder | bot.py:504-514 | the parts come in the fixed order emotion, intensity, body, reason, note |
| Conversation.SummaryWithIntensity | bot.py:504-520 | with an intensity, the text is the emotion, a space, `(i/10)`, then the non-empty lines |
| Conversation.SummaryWithoutIntensity | bot.py:504-520 | without one, the first non-empty line is joined to the emotion by a space, and the emotion stands alone when no line is filled |
| Conversation.CommitOnlyFromNote | bot.py:476-489 | an entry is stored only from `waiting_for_note`, by a typed note or `finish_entry`, and the context is then cleared |
| Conversation.MenuClears | bot.py:770-777 | `menu` clears the context from every state and stores nothing |
| Conversation.StatelessHandlers | bot.py:229-325 | `check`, `/check`, `back_to_input`, `show_emotions` and `other_emotion` act the same from every state |
| Conversation.FreeTextEmotion | bot.py:259-273 | free text stores the stripped text as the emotion, clears category and intensity, and asks for the body sensation |
| Conversation.CuratedEmotion | bot.py:328-351 | `em_i` stores the category's `i`-th emotion, clears intensity, and asks for the body sensation |
| Conversation.NoChangeActions | bot.py:328-473 | `em_` without a category only alerts, `body_custom` and `add_note` only prompt: state and draft stay as they were |
| Conversation.LateCommandsAreText | bot.py:259-797 | in a state that takes text, `/diary`, `/stats`, `/settings` and `/help` are taken as that text, because their handlers are registered later |
| Conversation.CategoryPicked | bot.py:302-315 | `cat_i` stores the category and enters `waiting_for_emotion` even when the catalog has no list for it; then the handler raises |
| Conversation.BodyPicked | bot.py:385-400 | `body_i` stores the sensation and moves to the reason |
| Conversation.ReasonTyped | bot.py:432-435 | a typed reason is stored stripped and the note step follows |
| Conversation.FinishWithoutNote | bot.py:482-486 | `finish_entry` commits with a `None` note |
| Conversation.NeverEntersIntensity | bot.py:240-527 | no handler leads into `waiting_for_intensity`, so its handlers are unreachable |
| Conversation.StepKeepsInv | bot.py:240-527 | every handler keeps the reachable-state invariant; in a reachable `waiting_for_note` the commit succeeds and never stores an intensity |
| Conversation.RunKeepsInv | bot.py:240-777 | every sequence of events from a reachable context keeps the invariant and stores no intensity |
| Conversation.FreshUserNeverRecordsIntensity | bot.py:240-777 | from an empty context no sequence of events stores an entry with an intensity |
| Conversation.CheckInRoundTrip | bot.py:286-527 | show ideas, pick category, emotion and body, type a reason, finish: exactly that one entry is stored, and the context is empty again |
| Conversation.BodyReasonFinish | bot.py:385-527 | with an emotion chosen, body, reason and finish store one entry with those fields |
| Conversation.Session.Handle | bot.py:240-777 | one event moves the session to the handler's state and draft, appends what it stored, and keeps the invariant |
| Diary.Window | database.py:144-152 | `LIMIT n OFFSET k` returns the rows from position `k` on, at most `n` of them |
| Diary.PageShownIffInRange | bot.py:570-578 | a page is listed exactly when it starts before the end of the diary, with one to five entries; otherwise the empty-diary screen is shown |
| Diary.ForwardIffNextPage | bot.py:594-595 | the forward button is there exactly when the next page has entries |
| Diary.BackLeadsToFullPage | bot.py:592-593 | the back button is there exactly from the second page on, and leads to a full page that has a forward button |
| Diary.EntryOnItsPage | bot.py:570-572 | entry `i` is on page `i / 5` at position `i % 5` |
| Diary.BrowseShowsAll | bot.py:570-599 | following the forward button from a page shows every later entry exactly once, in order |
| Diary.BrowseFromStart | bot.py:570-599 | paging forward from the first page shows the whole diary |
| Diary.NewestFirst | database.py:144-152 | right after a commit the first diary page starts with the new entry, followed by the ones stored just before it |
| Stats.RunLength | database.py:214-221 | the run length is between 1 and the number of dates for a non-empty list |
| Stats.CalculateStreak | database.py:197-221 | the loop computes `Streak`: 0 with no dates or when the newest is older than yesterday, else the length of the leading run of consecutive days |
| Stats.RunLengthMaximal | database.py:214-221 | the counted dates are consecutive days back from the newest, and the next date breaks the run |
| Stats.StreakDays | database.py:197-221 | for distinct dates, newest first: the streak is positive exactly when the newest date is today or yesterday; then every day of the streak has an entry, the day before it has none, and the streak is at most the number of dates |
| Stats.StreakExamples | database.py:197-221 | today, yesterday and the day before give 3; yesterday and the day before give 2; no dates or an older newest date give 0 |
| Stats.DayPartsDisjoint | database.py:258-262 | no hour falls into two buckets of the `CASE` |
| Stats.DayPartsCoverTheDay | database.py:258-262 | the four buckets together are exactly the hours 0 to 23 |
| Stats.MorningHours | database.py:259 | "утро" is the hours 6 to 11 |
| Stats.AfternoonHours | database.py:260 | "день" is the hours 12 to 17 |
| Stats.EveningHours | database.py:261 | "вечер" is the hours 18 to 22 |
| Stats.NightHours | database.py:262 | "ночь" is the hours 23 and 0 to 5 |
| Stats.DayPartsPartitionTheDay | database.py:258-262 | the four buckets, 6 + 6 + 5 + 7 hours, cover the 24 hours of the day |

## Left out

- Telegram transport: sending, editing, answering callbacks, Markdown, the Russian prompt texts and the keyboards. A handler's visible result is an abstract `Effect`. The diary and statistics screens are named but not rendered.
- Database plumbing: the connection pool, DDL, migrations and SQL text. Tables are in-memory sequences. Rows with the same `created_at` are taken in insertion order, which the SQL does not promise.
- The two queries of `show_diary` (entries and count) are not atomic. The model reads both from one list.
- `save_scheduled_checks` is a DELETE and a series of INSERTs, not one transaction. The model applies them together, and a failing statement half-way is not modelled.
- Wall clocks: server-local "today", UTC "now" and the local `now` of `add_delayed_check` are parameters. They are not reconciled.
- `random.sample` is a nondeterministic choice. Its distribution is not modelled.
- `datetime.combine` is modelled only through its failure for an hour outside 0..23. `replace(hour=...)` raises there, and that is `HourOutOfRange`.
- Scheduling and concurrency: the APScheduler wiring, overlapping runs of the dispatch pass, the health server and `main`.
- `regenerate_daily_schedules` and `send_weekly_summary` only call the modelled generator or send text.
- The averages (`AVG`, `round`) and the top-N `GROUP BY ... ORDER BY count DESC LIMIT n` queries, including the peak time of day. Their tie order is unspecified.
- The contents of emotions.py, which is not part of this model. The catalog is a parameter.
- The emoji lookup of `select_category` is modelled only as "raises when the category has no emotion list".
- Callback indices are natural numbers. Python's negative-index wrap for forged `em_-1` or `body_-1` data, and negative `diary_page_` numbers, are not modelled.
- Non-text messages (stickers, photos) in a text-taking state make `message.text` `None`. They are not modelled; every typed action carries a string.
- Command arguments and bot `@mentions` are not parsed. A command taken as text carries its raw text.
- Onboarding and settings handlers are modelled as the write `Request` they make. The writes to the users table are not modelled.
- Text.TrimMeaning: `str.strip` is modelled with ASCII whitespace only. Unicode spaces are not stripped.
- Stats.StreakDays: dates are day numbers. The database's `DATE(created_at)` and the server's `datetime.now().date()` may be in different time zones, which is not modelled.
- The summary text joins its first two parts with a space, and each further part begins on its own line. Without an intensity, the first line therefore ends in a space before the newline of the body, reason or note line.
- CheckTable.ScheduledChecks.GetPendingChecks: the SELECT of `get_pending_checks` has no ORDER BY, so the database may return the due checks in any order. The model fixes one order, the table's, and with it which of a user's due checks carries the single send of a pass. The `Pass` lemmas hold for every order of the users.
