# Scheduling core of the Telegram code-assistant bot

This project models the core of a Telegram bot for programmers, and proves properties about it. The modelled core is everything that sits on the bot's job queue, plus the command glue that feeds that queue.

- **Job queue** (`jobs.dfy`, module `Jobs`). This is python-telegram-bot's `JobQueue`, reduced to what the bot uses of it:
  - `run_once` and `run_daily` append a job;
  - `get_jobs_by_name` lists the live jobs with a name;
  - `Job.schedule_removal` marks a job removed;
  - the scheduler takes a due job: a one-shot job is used up, a daily job stays.

  Jobs are never deleted from the class's `jobs` sequence. A job object is its index in that sequence (its handle).
- **Pomodoro sessions** (`pomodoro.py`; `pomodoro.dfy`, class `Pomodoros`). The table `active_pomodoros` maps a user to the jobs of that user's session. Four operations drive it: `start_pomodoro`, `stop_pomodoro`, `pomodoro_work_end` and `pomodoro_break_end`. The invariant `Consistent` states that the table and the queue agree:
  - every session is `[work job]` or `[work job, break job]`;
  - a live work job is the whole session of its user;
  - a live break job is the second job of its user's session.
- **Daily reminders** (`reminders.py`; `reminders.dfy`): `set_reminder`, `daily_reminder` and `stop_reminder`. `set_reminder` is installed as the `/set_reminder` command handler (bot/handlers.py:569), so the text it parses always starts with the command word; see "## Findings". Reminders that do get set come from the button conversation in `handle_text`.
- **Daily weather pushes** (`weather.py`; `weather.dfy`): `set_weather_updates` and `send_daily_weather`. The HTTP weather lookup `get_weather` is a function parameter.
- **Command glue** (`handlers.py`; `handlers.dfy`):
  - `button_callback`'s first-match routing of callback data;
  - the codec of task buttons: `update_task_{id}`, `set_status_{id}_{status}` and `delete_task_{id}`, decoded with `split("_")` and `int(...)`;
  - the two-step conversation held in `context.user_data['next_action']`: a button stores it, `handle_text` consumes it and resets it.
- **Scheduler runs** (`dispatch.dfy`, module `Dispatch`). A due job is taken from the queue and its callback runs as one atomic step.
- **Python built-ins** (`text.dfy`, `clock.dfy`). The model writes out the built-ins the core relies on:
  - `str.strip()`, `str.split()`, `str.split("_")`, `int(str)` and `str(int)`;
  - `datetime.strptime(s, "%H:%M")` and `strftime('%H:%M')`;
  - the shift of a host-local time of day to UTC. The host's UTC offset is the parameter `offsetMinutes`, and the shift is `(h*60 + m - offsetMinutes) mod 1440`.

Modelling conventions:
- The current time `now` is a parameter.
- Messages the bot sends are returned as values: texts, `Message` records and `Reply` records.
- A Python exception that a handler catches becomes an explicit outcome: `None`, `Failed`, or a `raised` flag.

## Model

| member | source | states |
|---|---|---|
| Jobs.JobQueue.RunOnce | bot/pomodoro.py:23-29 | `run_once` appends exactly one live one-shot job with the given callback, due time, chat, name and data; earlier jobs are unchanged |
| Jobs.JobQueue.RunDaily | bot/reminders.py:21-26 | `run_daily` appends one daily job and replaces nothing: the jobs live under that name afterwards are the earlier ones plus the new one |
| Jobs.JobQueue.GetJobsByName | bot/reminders.py:49 | `get_jobs_by_name` returns exactly the live jobs carrying the name (the loop is proved against `Matching`; the model lists them in registration order) |
| Jobs.JobQueue.ScheduleRemoval | bot/pomodoro.py:43 | `schedule_removal` marks that one job removed and changes nothing else |
| Jobs.JobQueue.Take | bot/pomodoro.py:48-53 | the scheduler running job `h`: a job no longer scheduled yields nothing; a one-shot job is used up; a daily job stays live |
| Jobs.MatchingMeaning | bot/reminders.py:49 | a handle is listed under a name iff the job is live and has that name; the list is strictly increasing |
| Jobs.MatchingAppend | bot/weather.py:57-63 | appending a job keeps the earlier matches and adds the new job iff it is live and has the name |
| Jobs.RemovingMatchesLeavesNone | bot/reminders.py:59-60 | after removing every match of a name, no live job has that name |
| Pomodoro.Pomodoros.Start | bot/pomodoro.py:10-32 | with a session: reply only, table and queue unchanged; without one: exactly one work job (`pomodoro_work_{user}`, due now + 1500 s, data user_id and break_duration 300) becomes the user's whole session; keeps `Consistent` |
| Pomodoro.Pomodoros.Stop | bot/pomodoro.py:34-46 | without a session: reply only, nothing changes; with one: every job of the session is marked removed and only that user's entry is deleted; keeps `Consistent` |
| Pomodoro.Pomodoros.WorkEnd | bot/pomodoro.py:48-67 | a missing data key raises before anything happens; otherwise the chat is told the work phase ended and one break job (`Pomodoro break_{user}`, due now + break_duration) is appended; the session grows by that job, or, with no session, the callback raises with the break job already queued |
| Pomodoro.Pomodoros.BreakEnd | bot/pomodoro.py:69-78 | the chat is told the session is complete and the user's entry is deleted if present (deleting again changes nothing) |
| Pomodoro.StartKeeps | bot/pomodoro.py:23-30 | starting a session for a user without one preserves `Consistent` |
| Pomodoro.StopKeeps | bot/pomodoro.py:42-44 | stopping preserves `Consistent` and leaves no job of the stopped session live |
| Pomodoro.WorkEndKeeps | bot/pomodoro.py:50-67 | when a live work job fires, its data holds both keys, its user's session is just that job, and the session then becomes `[work, break]` consistently, so the lookup at line 67 cannot fail |
| Pomodoro.BreakEndKeeps | bot/pomodoro.py:71-78 | when a live break job fires, its user's session is `[work, break]` with this job second, and deleting the session keeps `Consistent` |
| Pomodoro.ForeignKeeps | bot/reminders.py:21-26 | removals and appended reminder or weather jobs never break the pomodoro table's consistency |
| Pomodoro.ConsistentHandlesIn | bot/pomodoro.py:42-43 | every job handle held in the table refers to an existing job |
| Reminders.SetReminder | bot/reminders.py:8-29 | as written: the whole stripped message text must parse as `%H:%M`, else the ValueError reply and no job; on success one daily job named `str(chat_id)` for that chat at the UTC-shifted time is appended, and the reply echoes the typed time (for an `HH:MM` text, that text itself) |
| Reminders.SlashTextRefused | bot/reminders.py:12 | a text starting with `/` never parses as a time, stripped or not |
| Reminders.CommandTextRefused | bot/reminders.py:12 | the `/set_reminder ...` message that reaches `set_reminder` never parses, whatever follows the command word |
| Reminders.CommandArgs | bot/weather.py:49 | `context.args` has one word fewer than the message (none for an empty message) |
| Reminders.CommandArgsOfOneWord | bot/weather.py:49 | `/set_reminder WORD` has exactly the one argument `WORD` |
| Reminders.SetReminderFromArgs | bot/reminders.py:8-32 | evidently intended `set_reminder`: no argument gives the generic error reply; an unparsable `args[0]` gives the invalid-format reply; otherwise one daily `str(chat_id)` job at the UTC-shifted time is appended and the typed time echoed |
| Reminders.CommandReminderRoundTrip | bot/reminders.py:12 | for every valid time, `/set_reminder HH:MM` gives the intended handler an argument that parses to that time, while the handler as written refuses that same message |
| Reminders.StopReminder | bot/reminders.py:46-66 | every live job named after the chat is marked removed (none: the "no active reminders" reply); afterwards no live job has that name; jobs with other names are untouched |
| Reminders.StopTwice | bot/reminders.py:49-56 | after one stop, a second stop finds no job and removes nothing |
| Reminders.TwoRemindersCoexist | bot/reminders.py:21-26 | setting a reminder twice leaves two live daily jobs under the chat's name |
| Reminders.ReminderNamesDistinct | bot/reminders.py:25 | different chats get different reminder names, so stopping one chat's reminders spares the others |
| Dispatch.ReminderReachesItsChat | bot/reminders.py:35-43 | the job a chat registers is daily and, when it fires, sends the reminder text to that chat |
| Weather.SetWeatherUpdates | bot/weather.py:43-68 | fewer than two arguments or an unparsable `args[1]` give the usage reply and add no job; otherwise one daily job `weather_update_{user}` with data `{location: args[0], chat_id}` at the UTC-shifted time is appended; further arguments are ignored |
| Weather.DailyWeatherMessage | bot/weather.py:70-82 | `send_daily_weather` sends a message iff the job data holds a string location and an integer chat id; otherwise the `KeyError` is caught inside the callback and nothing is sent (which chat and what text: `Weather.SubscriptionDelivers`) |
| Weather.SubscriptionDelivers | bot/weather.py:57-82 | the job a subscription registers sends its chat the weather of its location |
| Weather.ArgumentsOfTwoWords | bot/weather.py:49-51 | a message `LOCATION HH:MM` splits into exactly the location and the time |
| Dispatch.FireWorkEnd | bot/pomodoro.py:48-67 | a due live work job is used up, the chat gets the work-done text, the break job is appended, the session becomes `[work, break]`; `Consistent` holds after |
| Dispatch.FireBreakEnd | bot/pomodoro.py:69-78 | a due live break job is used up, the chat gets the break-over text, the session is deleted; `Consistent` holds after |
| Dispatch.FireOther | bot/weather.py:70-82 | a due reminder or weather job sends its message (a weather job with bad data sends nothing), stays scheduled if daily, and the pomodoro table stays consistent |
| Dispatch.RunJob | bot/pomodoro.py:48-78 | any due job runs as one step that keeps `Consistent`; a removed or used-up job does nothing; reminder and weather jobs never touch the pomodoro table; daily jobs stay scheduled |
| Handlers.DecodeSetStatus | bot/handlers.py:238-241 | the `set_status_` branch yields a status change or the raised-error outcome, nothing else |
| Handlers.DecodeDeleteTask | bot/handlers.py:270-271 | the `delete_task_` branch yields a deletion or the raised-error outcome, nothing else |
| Handlers.UnmatchedIsUnknown | bot/handlers.py:156-342 | data falls through to the main menu iff it equals none of the 21 literal branches and starts with none of the three task prefixes |
| Handlers.ExactDataUnprefixed | bot/handlers.py:211-271 | no literal callback data starts with a task prefix, so the order of the literal and prefix tests never matters |
| Handlers.RouteByPrefix | bot/handlers.py:226-271 | data with a task prefix is routed by that prefix's branch alone |
| Handlers.UpdateTaskRoundTrip | bot/handlers.py:218-227 | the button `update_task_{id}` yields the id as text (`split("_")[-1]`) |
| Handlers.DeleteTaskRoundTrip | bot/handlers.py:262-271 | the button `delete_task_{id}` decodes back to the same integer id |
| Handlers.SetStatusRoundTrip | bot/handlers.py:229-241 | for each of Pending, In Progress and Completed, the button `set_status_{id}_{status}` decodes back to the same id and status |
| Handlers.StatusChangeRoundTrip | bot/handlers.py:226-241 | the two clicks of a status change carry the id and the chosen status through unchanged |
| Handlers.TaskDataSplits | bot/handlers.py:227 | `update_task_{id}` and `delete_task_{id}` split on "_" into the two words and the id |
| Handlers.StatusDataSplits | bot/handlers.py:239 | `set_status_{id}_{status}` splits on "_" into the two words, the id and the status |
| Handlers.AskingButtons | bot/handlers.py:179-308 | the six asking buttons store `add_project`, `delete_project`, `add_task`, `set_reminder`, `weather_one_time` and `set_weather_updates` |
| Handlers.OnlyAskingButtonsAsk | bot/handlers.py:156-342 | no other callback data stores a `next_action` |
| Handlers.ConversationClosed | bot/handlers.py:352-420 | every action a button stores has a text branch, and every text branch's action is stored by some button |
| Handlers.ButtonCallback | bot/handlers.py:149-346 | routes the data; the six asking buttons set `next_action` and prompt; the stop button removes the chat's reminders and shows the "no active reminders" follow-up; a decoding error shows the error text; the "Reminder stopped" follow-up is never shown; the queue changes only by removals |
| Handlers.ReminderFromText | bot/handlers.py:372-384 | the unstripped message must parse as `%H:%M`; on success one daily reminder for the chat at the UTC-shifted time, else the invalid-format reply and no job |
| Handlers.WeatherUpdatesFromText | bot/handlers.py:393-409 | the message's first two words are the location and time; too few words or a bad time give the input-error reply and no job; otherwise one daily weather job for the user |
| Handlers.HandleText | bot/handlers.py:349-426 | no or unknown `next_action`: only the main menu, nothing changes; each recognised branch resets `next_action` on its normal path (also after a bad time or too few words) and ends with the main menu; a database call that raises leaves `next_action` set and ends in the error reply |
| Handlers.TextReminderDoesNotStrip | bot/handlers.py:374 | " 07:30" is refused by the text branch, which does not strip, but accepted by the stripping parse of bot/reminders.py:12 |
| Clock.ParseClock | bot/reminders.py:12 | whatever `strptime(..., "%H:%M")` accepts is a valid time of day |
| Clock.FiveCharForm | bot/reminders.py:12 | a five-character `DD:DD` string parses iff its hour is below 24 and its minute below 60, to those values |
| Clock.ParseFormat | bot/reminders.py:27 | `strftime('%H:%M')` output parses back to the same time |
| Clock.FormatParse | bot/reminders.py:27 | a parsed five-character time is printed back as the same text |
| Clock.RejectsOutOfRange | bot/reminders.py:28-29 | "25:99" is a ValueError |
| Clock.ToUtc | bot/reminders.py:16-18 | the UTC time is a valid time of day that, shifted back by the offset, is the local time modulo 24 h |
| Clock.ToUtcZeroOffset | bot/reminders.py:16-18 | with a zero offset the UTC time is the local time |
| Clock.ToUtcInjective | bot/weather.py:55 | distinct local times map to distinct UTC times |
| Text.Strip | bot/reminders.py:12 | `str.strip()` returns an infix `s[i..j]` of its argument where everything before `i` and from `j` on is whitespace, and the result neither starts nor ends with whitespace |
| Text.SplitWordsAreWords | bot/handlers.py:395 | `str.split()` yields non-empty words without whitespace |
| Text.SplitTwoWords | bot/handlers.py:395 | two words joined by a space split back into those two words |
| Text.SplitOnJoin | bot/handlers.py:239 | `split(sep)` undoes joining pieces that contain no separator |
| Text.SplitOn | bot/handlers.py:227 | `split("_")` yields at least one piece and no piece contains "_" |
| Text.IntRoundTrip | bot/handlers.py:271 | `int(str(n)) == n` for every integer |
| Text.IntToStringInjective | bot/reminders.py:25 | `str` is injective on integers |
| Text.ParseInt | bot/handlers.py:240 | `int()` fails on a blank string |

## Left out

- Telegram I/O: sending, editing and answering messages are returned as values. Menus, keyboards, the help text and `send_menu` are reduced to a marker (`MainMenuReply`) or left out.
- The project/task database (`bot/database.py` is not part of this model). In `handle_text` a database call is the parameter `db`: true, false or raised. In `button_callback` the `set_status_` and `delete_task_` branches are modelled up to the decoded action, and the database update and the listing that follow are left out.
- The `show_projects`, `view_tasks`, `update_task`, `delete_task` and `motivation` buttons only read the database or an HTTP quote service and render a menu. The model routes them (`Route`) but leaves out what they display, and it leaves out an exception raised while they run.
- `get_weather` and the quote service are HTTP calls. `get_weather` is the function parameter `getWeather`, and its float temperatures are not modelled.
- Concurrency: every handler and callback is one atomic step, so the race between `stop_pomodoro` and a job firing at the same moment is not modelled.
- Pomodoro.Pomodoros.Stop: does not model APScheduler raising `JobLookupError` when `schedule_removal` is called on a one-shot job that has already run. The scheduler library is not part of this model. In the break phase, the session's first job is the work job, which has already run. So in the real bot the first `schedule_removal` at bot/pomodoro.py:43 raises, the table entry and the live break job both survive, and no reply is sent. The model instead removes both jobs and the entry.
- Jobs.JobQueue.GetJobsByName: lists matches in registration order, while the library lists them in its job store's order (by next run time). `stop_reminder` removes every match, so the order does not affect it.
- The real clock and time zones: `now` is a parameter in seconds. The host's UTC offset is a fixed parameter, so daylight-saving changes and the time-zone database are not modelled.
- `strptime`'s `\d` and `int()` also accept non-ASCII Unicode digits, and `int()` accepts `_` between digits. The model accepts ASCII digits only.
- Reminders.SetReminder: does not model the generic `except Exception` branch (bot/reminders.py:30-32), because no modelled step raises anything but the ValueError of the parse.
- Handlers.HandleText: does not model an exception raised by `get_weather` or by `send_menu`, because both are outside the model.
- User and chat ids are taken to be integers, as Telegram provides them.
- `weather_command` (bot/weather.py:33-41) is a one-shot HTTP lookup that touches no state.

## Findings

| source | as written | input that shows it | evidently intended | confidence | as-written member | corrected member |
|---|---|---|---|---|---|---|
| bot/reminders.py:12 | `set_reminder` parses `update.message.text.strip()`, but it is only installed as the `/set_reminder` command handler (bot/handlers.py:569), so that text always starts with the command word | `/set_reminder 07:30` gets "Invalid time format!" and no job | parse the command's first argument `context.args[0]`, as the help text `/set_reminder HH:MM` (bot/handlers.py:452) and `set_weather_updates` (bot/weather.py:49-54) suggest | not executed | Reminders.CommandTextRefused | Reminders.SetReminderFromArgs |
