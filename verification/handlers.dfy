/**
 * The command glue: routing of inline-button callback data (an if/elif chain where the first
 * match wins), the callback-data codec of task buttons (`update_task_{id}`, `set_status_{id}_{status}`,
 * `delete_task_{id}`), and the two-step conversation kept in `context.user_data['next_action']`:
 * a button sets it, the next text message consumes it and resets it.
 * Menus, keyboards and the project/task database are outside this model.
 */
module Handlers {
  import opened Wrappers
  import opened Text
  import opened Clock
  import opened Jobs
  import Reminders
  import Weather

  // ---------- callback data ----------

  /** `s.startswith(prefix)`. */
  predicate StartsWith(s: string, prefix: string)
  {
    |prefix| <= |s| && s[..|prefix|] == prefix
  }

  lemma StartsWithPrefix(prefix: string, rest: string)
    ensures StartsWith(prefix + rest, prefix)
  {
    assert (prefix + rest)[..|prefix|] == prefix;
  }

  /** What `button_callback` does for one piece of callback data. */
  datatype ButtonAction =
    | InlineMainMenu | MainMenu | ProjectsMenu | TasksMenu | RemindersMenu | WeatherMenu | ExtrasMenu
    | AskProjectToAdd | AskProjectToDelete | ShowProjects
    | AskTask | ViewTasks
    | ChooseTaskToUpdate | ChooseStatus(taskIdText: string) | SetStatus(taskId: int, status: string)
    | ChooseTaskToDelete | DeleteTask(taskId: int)
    | AskReminderTime | StopReminder | Motivation | AskWeatherLocation | AskWeatherSubscription
    | PomodoroInfo | Help
    | Unmatched  // no branch matched: the main menu is shown
    | Failed     // decoding raised (IndexError or ValueError): the generic error text is shown

  const Statuses: seq<string> := ["Pending", "In Progress", "Completed"]

  /** The data of the button that picks task `taskId` for a status change. */
  function UpdateTaskData(taskId: int): string { "update_task_" + IntToString(taskId) }

  /** The data of the button that sets task `taskId` (as the text it was decoded to) to `status`. */
  function SetStatusData(taskId: string, status: string): string { "set_status_" + taskId + "_" + status }

  /** The data of the button that deletes task `taskId`. */
  function DeleteTaskData(taskId: int): string { "delete_task_" + IntToString(taskId) }

  function Last(parts: seq<string>): string
    requires |parts| >= 1
  {
    parts[|parts| - 1]
  }

  /**
   * The `set_status_` branch: `parts = data.split("_")`, the id is `int(parts[2])`, the status
   * `parts[3]`. (Its `.replace("_", " ")` changes nothing: a piece of a split on "_" holds no "_".)
   */
  function DecodeSetStatus(data: string): (r: ButtonAction)
    ensures r.SetStatus? || r == Failed
  {
    var parts := SplitOn(data, '_');
    if |parts| < 3 then Failed
    else match ParseInt(parts[2])
      case None => Failed
      case Some(id) => if |parts| < 4 then Failed else SetStatus(id, parts[3])
  }

  /** The `delete_task_` branch: the id is `int(data.split("_")[-1])`. */
  function DecodeDeleteTask(data: string): (r: ButtonAction)
    ensures r.DeleteTask? || r == Failed
  {
    match ParseInt(Last(SplitOn(data, '_')))
    case None => Failed
    case Some(id) => DeleteTask(id)
  }

  /** `button_callback`'s chain of tests on the callback data, in source order. */
  function Route(data: string): ButtonAction
  {
    if data == "back_inline_main" then InlineMainMenu
    else if data == "back_to_main" then MainMenu
    else if data == "menu_projects" then ProjectsMenu
    else if data == "menu_tasks" then TasksMenu
    else if data == "menu_reminders" then RemindersMenu
    else if data == "menu_weather" then WeatherMenu
    else if data == "menu_extras" then ExtrasMenu
    else if data == "add_project" then AskProjectToAdd
    else if data == "delete_project" then AskProjectToDelete
    else if data == "show_projects" then ShowProjects
    else if data == "add_task" then AskTask
    else if data == "view_tasks" then ViewTasks
    else if data == "update_task" then ChooseTaskToUpdate
    else if StartsWith(data, "update_task_") then ChooseStatus(Last(SplitOn(data, '_')))
    else if StartsWith(data, "set_status_") then DecodeSetStatus(data)
    else if data == "delete_task" then ChooseTaskToDelete
    else if StartsWith(data, "delete_task_") then DecodeDeleteTask(data)
    else if data == "set_reminder" then AskReminderTime
    else if data == "stop_reminder" then StopReminder
    else if data == "motivation" then Motivation
    else if data == "weather_one_time" then AskWeatherLocation
    else if data == "weather_updates" then AskWeatherSubscription
    else if data == "pomodoro_timer" then PomodoroInfo
    else if data == "help" then Help
    else Unmatched
  }

  const ExactData: set<string> := {
    "back_inline_main", "back_to_main", "menu_projects", "menu_tasks", "menu_reminders",
    "menu_weather", "menu_extras", "add_project", "delete_project", "show_projects", "add_task",
    "view_tasks", "update_task", "delete_task", "set_reminder", "stop_reminder", "motivation",
    "weather_one_time", "weather_updates", "pomodoro_timer", "help"}

  /** Data that no branch recognises, and only such data, falls through to the main menu. */
  lemma UnmatchedIsUnknown(data: string)
    ensures Route(data) == Unmatched <==> data !in ExactData && Unprefixed(data)
  {
    ExactDataUnprefixed(data);
  }

  /** Data that none of the three task branches claims by its prefix. */
  predicate Unprefixed(data: string)
  {
    !StartsWith(data, "update_task_") && !StartsWith(data, "set_status_") && !StartsWith(data, "delete_task_")
  }

  /**
   * No exact-match data starts with one of the three task prefixes: each literal that shares a
   * first character with a prefix is shorter than it or differs from it at index 1, 4 or 7.
   */
  lemma ExactDataUnprefixed(data: string)
    ensures data in ExactData ==> Unprefixed(data)
  {
    if StartsWith(data, "update_task_") {
      assert data[..12] == "update_task_";
      assert |data| >= 12 && data[0] == 'u';
    } else if StartsWith(data, "set_status_") {
      assert data[..11] == "set_status_";
      assert data[0] == 's' && data[1] == 'e' && data[4] == 's';
    } else if StartsWith(data, "delete_task_") {
      assert data[..12] == "delete_task_";
      assert |data| >= 12 && data[0] == 'd' && data[7] == 't';
    }
  }

  /** Data with a task prefix is routed by that prefix alone. */
  lemma RouteByPrefix(data: string)
    requires !Unprefixed(data)
    ensures StartsWith(data, "update_task_") ==> Route(data) == ChooseStatus(Last(SplitOn(data, '_')))
    ensures StartsWith(data, "set_status_") ==> Route(data) == DecodeSetStatus(data)
    ensures StartsWith(data, "delete_task_") ==> Route(data) == DecodeDeleteTask(data)
  {
    ExactDataUnprefixed(data);
    if StartsWith(data, "set_status_") || StartsWith(data, "delete_task_") {
      assert data[0] != 'u';
      assert !StartsWith(data, "update_task_");
    }
    if StartsWith(data, "delete_task_") {
      assert data[0] != 's';
      assert !StartsWith(data, "set_status_");
    }
  }

  lemma IntToStringNoUnderscore(n: int)
    ensures '_' !in IntToString(n)
  {
    IntToStringShape(n);
  }

  /** The three task-id buttons split on "_" into their words and the id. */
  lemma {:induction false} TaskDataSplits(id: int)
    ensures SplitOn(UpdateTaskData(id), '_') == ["update", "task", IntToString(id)]
    ensures SplitOn(DeleteTaskData(id), '_') == ["delete", "task", IntToString(id)]
  {
    var s := IntToString(id);
    IntToStringNoUnderscore(id);
    JoinCons("task", [s], '_');
    assert ["task", s] == ["task"] + [s];
    assert Join(["task", s], '_') == "task_" + s;
    JoinCons("update", ["task", s], '_');
    assert ["update", "task", s] == ["update"] + ["task", s];
    assert UpdateTaskData(id) == Join(["update", "task", s], '_');
    SplitOnJoin(["update", "task", s], '_');
    JoinCons("delete", ["task", s], '_');
    assert ["delete", "task", s] == ["delete"] + ["task", s];
    assert DeleteTaskData(id) == Join(["delete", "task", s], '_');
    SplitOnJoin(["delete", "task", s], '_');
  }

  /** Picking a task to update hands the status buttons the id as text. */
  lemma {:induction false} UpdateTaskRoundTrip(id: int)
    ensures Route(UpdateTaskData(id)) == ChooseStatus(IntToString(id))
  {
    var d := UpdateTaskData(id);
    TaskDataSplits(id);
    StartsWithPrefix("update_task_", IntToString(id));
    RouteByPrefix(d);
  }

  /** A delete button decodes back to the id it was built from. */
  lemma {:induction false} DeleteTaskRoundTrip(id: int)
    ensures Route(DeleteTaskData(id)) == DeleteTask(id)
  {
    var d := DeleteTaskData(id);
    TaskDataSplits(id);
    IntRoundTrip(id);
    StartsWithPrefix("delete_task_", IntToString(id));
    RouteByPrefix(d);
  }

  /** A status button splits on "_" into its two words, the id text and the status. */
  lemma {:induction false} StatusDataSplits(taskId: string, status: string)
    requires '_' !in taskId && '_' !in status
    ensures SplitOn(SetStatusData(taskId, status), '_') == ["set", "status", taskId, status]
  {
    JoinCons(taskId, [status], '_');
    assert [taskId, status] == [taskId] + [status];
    JoinCons("status", [taskId, status], '_');
    assert ["status", taskId, status] == ["status"] + [taskId, status];
    JoinCons("set", ["status", taskId, status], '_');
    assert ["set", "status", taskId, status] == ["set"] + ["status", taskId, status];
    assert SetStatusData(taskId, status) == Join(["set", "status", taskId, status], '_');
    SplitOnJoin(["set", "status", taskId, status], '_');
  }

  lemma {:induction false} DecodeStatusData(id: int, status: string)
    requires '_' !in status
    ensures DecodeSetStatus(SetStatusData(IntToString(id), status)) == SetStatus(id, status)
  {
    IntToStringNoUnderscore(id);
    StatusDataSplits(IntToString(id), status);
    IntRoundTrip(id);
  }

  lemma StatusesHaveNoUnderscore(status: string)
    requires status in Statuses
    ensures '_' !in status
  {
  }

  lemma StatusDataPrefixed(taskId: string, status: string)
    ensures StartsWith(SetStatusData(taskId, status), "set_status_")
  {
    assert SetStatusData(taskId, status) == "set_status_" + (taskId + "_" + status);
    StartsWithPrefix("set_status_", taskId + "_" + status);
  }

  /** A status button decodes back to the id and the status it was built from. */
  lemma {:induction false} SetStatusRoundTrip(id: int, status: string)
    requires status in Statuses
    ensures Route(SetStatusData(IntToString(id), status)) == SetStatus(id, status)
  {
    StatusesHaveNoUnderscore(status);
    DecodeStatusData(id, status);
    StatusDataPrefixed(IntToString(id), status);
    RouteByPrefix(SetStatusData(IntToString(id), status));
  }

  /**
   * The two clicks of a status change: a task button yields an id text, and every status
   * button built from that text decodes to that id and the chosen status.
   */
  lemma StatusChangeRoundTrip(id: int, status: string)
    requires status in Statuses
    ensures Route(UpdateTaskData(id)).ChooseStatus?
    ensures Route(SetStatusData(Route(UpdateTaskData(id)).taskIdText, status)) == SetStatus(id, status)
  {
    UpdateTaskRoundTrip(id);
    SetStatusRoundTrip(id, status);
  }

  // ---------- the next_action conversation ----------

  const NextActionKey := "next_action"

  /** The `next_action` a button stores (None: the button does not start a conversation). */
  function NextActionFor(a: ButtonAction): Option<string>
  {
    match a
    case AskProjectToAdd => Some("add_project")
    case AskProjectToDelete => Some("delete_project")
    case AskTask => Some("add_task")
    case AskReminderTime => Some("set_reminder")
    case AskWeatherLocation => Some("weather_one_time")
    case AskWeatherSubscription => Some("set_weather_updates")
    case _ => None
  }

  /** The `next_action` values `handle_text` has a branch for. */
  const TextActions: set<string> :=
    {"add_project", "delete_project", "set_reminder", "weather_one_time", "set_weather_updates", "add_task"}

  /** The six buttons that start a conversation, and the action each stores. */
  lemma AskingButtons()
    ensures NextActionFor(Route("add_project")) == Some("add_project")
    ensures NextActionFor(Route("delete_project")) == Some("delete_project")
    ensures NextActionFor(Route("add_task")) == Some("add_task")
    ensures NextActionFor(Route("set_reminder")) == Some("set_reminder")
    ensures NextActionFor(Route("weather_one_time")) == Some("weather_one_time")
    ensures NextActionFor(Route("weather_updates")) == Some("set_weather_updates")
  {
    ExactDataUnprefixed("set_reminder");
    ExactDataUnprefixed("weather_one_time");
    ExactDataUnprefixed("weather_updates");
  }

  /** No other callback data starts a conversation. */
  lemma OnlyAskingButtonsAsk(data: string)
    requires NextActionFor(Route(data)).Some?
    ensures data in {"add_project", "delete_project", "add_task", "set_reminder", "weather_one_time", "weather_updates"}
  {
  }

  /** The button action that stores the text action `t` (Unmatched when none does). */
  function AskingAction(t: string): ButtonAction
  {
    if t == "add_project" then AskProjectToAdd
    else if t == "delete_project" then AskProjectToDelete
    else if t == "add_task" then AskTask
    else if t == "set_reminder" then AskReminderTime
    else if t == "weather_one_time" then AskWeatherLocation
    else if t == "set_weather_updates" then AskWeatherSubscription
    else Unmatched
  }

  /**
   * The conversation has no dead ends and no orphans: every action a button stores is one the
   * text handler consumes, and every action the text handler consumes is stored by a button.
   */
  lemma ConversationClosed(a: ButtonAction, t: string)
    ensures NextActionFor(a).Some? ==> NextActionFor(a).value in TextActions
    ensures t in TextActions <==> NextActionFor(AskingAction(t)) == Some(t)
  {
    if t in TextActions {
      assert t in {"add_project", "delete_project", "add_task", "set_reminder", "weather_one_time", "set_weather_updates"};
    }
  }

  /** `context.user_data.get('next_action')`. */
  function NextAction(userData: map<string, Option<string>>): Option<string>
  {
    if NextActionKey in userData then userData[NextActionKey] else None
  }

  /** A chat's `context`: its `user_data` dictionary and the bot's job queue. */
  class Context {
    var userData: map<string, Option<string>>
    const jobQueue: JobQueue

    constructor (q: JobQueue)
      ensures userData == map[] && jobQueue == q
    {
      userData := map[];
      jobQueue := q;
    }
  }

  const ErrorAfterButton := "An error occurred. Please try again later."
  const ReminderStoppedFollowUp := "⏹ Reminder stopped."

  /** The text a button that starts a conversation puts in place of the menu. */
  function Prompt(a: ButtonAction): string
  {
    match a
    case AskProjectToAdd => "Send the project name to add it:"
    case AskProjectToDelete => "Send the project name to delete it:"
    case AskTask => "Send the task description:"
    case AskReminderTime => "Send the time in HH:MM format to set a daily reminder:"
    case AskWeatherLocation => "Send the location to get the current weather:"
    case _ => "Send the location and time (HH:MM) to set daily weather updates:"
  }

  /**
   * The follow-up text of the `stop_reminder` button for the value `stop_reminder` returned. That
   * value is always None, so the follow-up is always the "no active reminders" text.
   */
  function StopReminderFollowUp(reminderStopped: bool): string
  {
    if reminderStopped then ReminderStoppedFollowUp else Reminders.NoRemindersReply
  }

  /**
   * `button_callback` for the callback data `data` pressed in chat `chatId`. Returns what the
   * data routed to and the texts the modelled branches show: a prompt for the six buttons that
   * store a `next_action`, the two texts of the stop-reminder button, and the error text when
   * decoding raised. Menus and task listings are not modelled and show nothing here.
   */
  method ButtonCallback(ctx: Context, data: string, chatId: int) returns (action: ButtonAction, shown: seq<string>)
    modifies ctx, ctx.jobQueue
    ensures action == Route(data)
    ensures NextActionFor(action).Some? ==>
              && ctx.userData == old(ctx.userData)[NextActionKey := NextActionFor(action)]
              && ctx.jobQueue.jobs == old(ctx.jobQueue.jobs)
              && shown == [Prompt(action)]
    ensures action == StopReminder ==>
              var hs := Matching(old(ctx.jobQueue.jobs), Reminders.ReminderName(chatId));
              && ctx.userData == old(ctx.userData)
              && ctx.jobQueue.jobs == MarkRemoved(old(ctx.jobQueue.jobs), hs)
              && shown == [if hs == [] then Reminders.NoRemindersReply else Reminders.StoppedReply,
                           Reminders.NoRemindersReply]
    ensures NextActionFor(action).None? && action != StopReminder ==>
              && ctx.userData == old(ctx.userData)
              && ctx.jobQueue.jobs == old(ctx.jobQueue.jobs)
              && shown == (if action == Failed then [ErrorAfterButton] else [])
    ensures ReminderStoppedFollowUp !in shown
    ensures ForeignUpdate(old(ctx.jobQueue.jobs), ctx.jobQueue.jobs)
  {
    action := Route(data);
    var next := NextActionFor(action);
    if next.Some? {
      ctx.userData := ctx.userData[NextActionKey := next];
      shown := [Prompt(action)];
    } else if action == StopReminder {
      var reply := Reminders.StopReminder(ctx.jobQueue, chatId);
      // `stop_reminder` returns None, which is falsy.
      shown := [reply, StopReminderFollowUp(false)];
    } else if action == Failed {
      shown := [ErrorAfterButton];
    } else {
      shown := [];
    }
  }

  /** The outcome of the project/task database call a text branch makes. */
  datatype DbOutcome = DbTrue | DbFalse | DbRaised

  /** A reply of `handle_text`: a text, or the main menu it sends after every handled branch. */
  datatype Reply = Text(text: string) | MainMenuReply

  const ErrorAfterText := "⚠️ An error occurred. Please try again."
  const WeatherInputError := "Invalid input! Use the format: [location] [HH:MM]."

  function DbBranch(action: string): bool
  {
    action == "add_project" || action == "delete_project" || action == "add_task"
  }

  /** The reply of a database branch for a stripped message `arg` (the call returned `ok`). */
  function DbReply(action: string, arg: string, ok: bool): string
  {
    if action == "add_project" then
      if ok then "Project '" + arg + "' added successfully!" else "Project '" + arg + "' already exists."
    else if action == "delete_project" then
      if ok then "Project '" + arg + "' deleted successfully!" else "Project '" + arg + "' does not exist."
    else
      if ok then "✅ Task added: " + arg else "❌ Failed to add task: " + arg
  }

  /**
   * The `set_reminder` branch of `handle_text`: the message itself (not stripped) must be an
   * `HH:MM` time; a daily reminder named after the chat is then registered at its UTC equivalent.
   */
  method ReminderFromText(q: JobQueue, text: string, chatId: int, offsetMinutes: int) returns (reply: string)
    modifies q
    ensures ParseClock(text).None? ==> q.jobs == old(q.jobs) && reply == Reminders.InvalidTimeReply
    ensures ParseClock(text).Some? ==>
              var t := ParseClock(text).value;
              && q.jobs == old(q.jobs) + [Reminders.ReminderJob(chatId, ToUtc(t, offsetMinutes))]
              && reply == "Daily reminder set for " + FormatClock(t) + " UTC."
    ensures ParseClock(text).Some? && |text| == 5 ==> reply == "Daily reminder set for " + text + " UTC."
    ensures ForeignUpdate(old(q.jobs), q.jobs)
  {
    var reminderTime := ParseClock(text);
    if reminderTime.None? {
      reply := Reminders.InvalidTimeReply;
      return;
    }
    var utcTime := ToUtc(reminderTime.value, offsetMinutes);
    var _ := q.RunDaily(DailyReminder, utcTime, chatId, Reminders.ReminderName(chatId), map[]);
    reply := "Daily reminder set for " + FormatClock(reminderTime.value) + " UTC.";
    if |text| == 5 {
      FormatParse(text);
    }
  }

  /**
   * The `set_weather_updates` branch of `handle_text`, given the message's words `userInput`
   * (`text.split()`): the first two are a location and an `HH:MM` time (an IndexError or a
   * ValueError otherwise); a daily weather push named after the user is then registered at the
   * UTC equivalent. Further words are ignored.
   */
  method WeatherUpdatesFromText(q: JobQueue, userInput: seq<string>, userId: int, chatId: int, offsetMinutes: int)
    returns (reply: string)
    modifies q
    ensures (|userInput| < 2 || ParseClock(userInput[1]).None?) ==> q.jobs == old(q.jobs) && reply == WeatherInputError
    ensures |userInput| >= 2 && ParseClock(userInput[1]).Some? ==>
              && q.jobs == old(q.jobs)
                   + [Weather.WeatherJob(userId, chatId, userInput[0], ToUtc(ParseClock(userInput[1]).value, offsetMinutes))]
              && reply == "Daily weather updates set for " + userInput[0] + " at " + userInput[1] + " UTC."
    ensures ForeignUpdate(old(q.jobs), q.jobs)
  {
    if |userInput| < 2 {
      reply := WeatherInputError;
      return;
    }
    var location, timeStr := userInput[0], userInput[1];
    var userTime := ParseClock(timeStr);
    if userTime.None? {
      reply := WeatherInputError;
      return;
    }
    var utcTime := ToUtc(userTime.value, offsetMinutes);
    var _ := q.RunDaily(SendDailyWeather, utcTime, chatId, Weather.WeatherJobName(userId),
                        Weather.WeatherData(location, chatId));
    reply := "Daily weather updates set for " + location + " at " + timeStr + " UTC.";
  }

  /**
   * `handle_text` for the message `text` from user `userId` in chat `chatId`. `db` is what the
   * branch's database call does, `getWeather` the weather lookup, `offsetMinutes` the host's UTC
   * offset. Each recognised action resets `next_action` to None on its normal path and ends with
   * the main menu; a database call that raises ends in the error reply alone, with `next_action`
   * left as it was; an absent or unknown action changes nothing and only shows the main menu.
   */
  method HandleText(ctx: Context, text: string, chatId: int, userId: int, offsetMinutes: int,
                    db: DbOutcome, getWeather: string -> string) returns (replies: seq<Reply>)
    modifies ctx, ctx.jobQueue
    ensures var action := NextAction(old(ctx.userData));
            (action.None? || action.value !in TextActions) ==>
              ctx.userData == old(ctx.userData) && ctx.jobQueue.jobs == old(ctx.jobQueue.jobs)
              && replies == [MainMenuReply]
    ensures var action := NextAction(old(ctx.userData));
            action.Some? && DbBranch(action.value) ==>
              && ctx.jobQueue.jobs == old(ctx.jobQueue.jobs)
              && (db == DbRaised ==> ctx.userData == old(ctx.userData) && replies == [Text(ErrorAfterText)])
              && (db != DbRaised ==>
                    ctx.userData == old(ctx.userData)[NextActionKey := None]
                    && replies == [Text(DbReply(action.value, Strip(text), db == DbTrue)), MainMenuReply])
    ensures NextAction(old(ctx.userData)) == Some("weather_one_time") ==>
              && ctx.userData == old(ctx.userData)[NextActionKey := None]
              && ctx.jobQueue.jobs == old(ctx.jobQueue.jobs)
              && replies == [Text(getWeather(Strip(text))), MainMenuReply]
    ensures NextAction(old(ctx.userData)) == Some("set_reminder") ==>
              && ctx.userData == old(ctx.userData)[NextActionKey := None]
              && (ParseClock(text).None? ==>
                    ctx.jobQueue.jobs == old(ctx.jobQueue.jobs)
                    && replies == [Text(Reminders.InvalidTimeReply), MainMenuReply])
              && (ParseClock(text).Some? ==>
                    ctx.jobQueue.jobs == old(ctx.jobQueue.jobs)
                      + [Reminders.ReminderJob(chatId, ToUtc(ParseClock(text).value, offsetMinutes))]
                    && replies == [Text("Daily reminder set for " + FormatClock(ParseClock(text).value) + " UTC."),
                                   MainMenuReply])
    ensures NextAction(old(ctx.userData)) == Some("set_weather_updates") ==>
              var words := SplitWords(text);
              && ctx.userData == old(ctx.userData)[NextActionKey := None]
              && ((|words| < 2 || ParseClock(words[1]).None?) ==>
                    ctx.jobQueue.jobs == old(ctx.jobQueue.jobs)
                    && replies == [Text(WeatherInputError), MainMenuReply])
              && (|words| >= 2 && ParseClock(words[1]).Some? ==>
                    ctx.jobQueue.jobs == old(ctx.jobQueue.jobs)
                      + [Weather.WeatherJob(userId, chatId, words[0], ToUtc(ParseClock(words[1]).value, offsetMinutes))]
                    && replies == [Text("Daily weather updates set for " + words[0] + " at " + words[1] + " UTC."),
                                   MainMenuReply])
    ensures ForeignUpdate(old(ctx.jobQueue.jobs), ctx.jobQueue.jobs)
  {
    var q := ctx.jobQueue;
    var nextAction := NextAction(ctx.userData);
    if nextAction.None? || nextAction.value !in TextActions {
      replies := [MainMenuReply];
      return;
    }
    var action := nextAction.value;
    var reply: string;
    if DbBranch(action) {
      if db == DbRaised {
        replies := [Text(ErrorAfterText)];
        return;
      }
      reply := DbReply(action, Strip(text), db == DbTrue);
    } else if action == "set_reminder" {
      reply := ReminderFromText(q, text, chatId, offsetMinutes);
    } else if action == "weather_one_time" {
      reply := getWeather(Strip(text));
    } else {
      reply := WeatherUpdatesFromText(q, SplitWords(text), userId, chatId, offsetMinutes);
    }
    ctx.userData := ctx.userData[NextActionKey := None];
    replies := [Text(reply), MainMenuReply];
  }

  lemma StripPaddedTime()
    ensures Strip(" 07:30") == "07:30"
  {
    assert NoSpace("07:30");
    StripLeadingBlank("07:30");
    assert " 07:30" == " " + "07:30";
  }

  /**
   * The text branch does not strip its input, unlike the parse in `set_reminder`: " 07:30" is
   * refused by the former and accepted by the latter's stripping parse.
   */
  lemma TextReminderDoesNotStrip()
    ensures ParseClock(" 07:30") == None
    ensures ParseClock(Strip(" 07:30")) == Some(TimeOfDay(7, 30))
  {
    assert HourWidth(" 07:30") == 0;
    StripPaddedTime();
    FiveCharForm("07:30");
  }
}
