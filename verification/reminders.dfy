/**
 * Daily reminders: `set_reminder` parses a time from the message text and registers a daily job
 * named after the chat, and `stop_reminder` removes every live job with that name.
 * `set_reminder` is installed as the handler of the `/set_reminder` command, so the text it parses
 * always begins with the command word and never parses (`CommandTextRefused`);
 * `SetReminderFromArgs` is the handler as evidently intended, reading the command's argument.
 */
module Reminders {
  import opened Wrappers
  import opened Text
  import opened Clock
  import opened Jobs

  const InvalidTimeReply := "Invalid time format! Use HH:MM (24-hour format)."
  const NoRemindersReply := "No active reminders to stop."
  const StoppedReply := "Reminder stopped."
  const ReminderText := "Don't forget to code today! What project are you working on?"

  /** The name under which a chat's reminders are registered: `str(chat_id)`. */
  function ReminderName(chatId: int): string { IntToString(chatId) }

  /** The daily job that reminds chat `chatId` at UTC time `utc`. */
  function ReminderJob(chatId: int, utc: TimeOfDay): Job
  {
    Job(DailyReminder, Daily(utc), chatId, ReminderName(chatId), map[], false)
  }

  /** The confirmation echoes the time the user typed (re-printed as HH:MM), not the UTC time. */
  function SetReply(t: TimeOfDay): string
    requires Valid(t)
  {
    "Reminder set for " + FormatClock(t) + " UTC."
  }

  /**
   * `set_reminder` as written: the whole message text, stripped, must parse as `%H:%M`; then one
   * daily job is appended for the host-local time shifted to UTC. An earlier reminder of the same
   * chat stays.
   */
  method SetReminder(q: JobQueue, text: string, chatId: int, offsetMinutes: int) returns (reply: string)
    modifies q
    ensures ParseClock(Strip(text)).None? ==> q.jobs == old(q.jobs) && reply == InvalidTimeReply
    ensures ParseClock(Strip(text)).Some? ==>
              var t := ParseClock(Strip(text)).value;
              && q.jobs == old(q.jobs) + [ReminderJob(chatId, ToUtc(t, offsetMinutes))]
              && reply == SetReply(t)
    ensures ParseClock(Strip(text)).Some? && |Strip(text)| == 5 ==>
              reply == "Reminder set for " + Strip(text) + " UTC."
    ensures ForeignUpdate(old(q.jobs), q.jobs)
  {
    var userTime := ParseClock(Strip(text));
    if userTime.None? {
      reply := InvalidTimeReply;
      return;
    }
    var utcTime := ToUtc(userTime.value, offsetMinutes);
    var _ := q.RunDaily(DailyReminder, utcTime, chatId, ReminderName(chatId), map[]);
    reply := SetReply(userTime.value);
    if |Strip(text)| == 5 {
      FormatParse(Strip(text));
    }
  }

  /**
   * `stop_reminder`: with no live job named after the chat, only a reply; otherwise every such job
   * is removed. Afterwards no live job has that name, and jobs with other names are untouched.
   * (The handler answers the same text by editing the button message or by a reply; the model
   * returns the text.)
   */
  method StopReminder(q: JobQueue, chatId: int) returns (reply: string)
    modifies q
    ensures var hs := Matching(old(q.jobs), ReminderName(chatId));
            && q.jobs == MarkRemoved(old(q.jobs), hs)
            && reply == (if hs == [] then NoRemindersReply else StoppedReply)
    ensures Matching(q.jobs, ReminderName(chatId)) == []
    ensures forall h :: 0 <= h < |q.jobs| && q.jobs[h].name != ReminderName(chatId) ==> q.jobs[h] == old(q.jobs)[h]
    ensures ForeignUpdate(old(q.jobs), q.jobs)
  {
    var jobs := q.GetJobsByName(ReminderName(chatId));
    if jobs == [] {
      reply := NoRemindersReply;
      assert MarkRemoved(q.jobs, jobs) == q.jobs;
      return;
    }
    var i := 0;
    MatchingMeaning(old(q.jobs), ReminderName(chatId));
    while i < |jobs|
      invariant 0 <= i <= |jobs|
      invariant q.jobs == MarkRemoved(old(q.jobs), jobs[..i])
    {
      assert jobs[i] in jobs;
      MarkRemovedStep(old(q.jobs), jobs, i);
      q.ScheduleRemoval(jobs[i]);
      i := i + 1;
    }
    assert jobs[..i] == jobs;
    RemovingMatchesLeavesNone(old(q.jobs), ReminderName(chatId));
    reply := StoppedReply;
  }

  const SetReminderErrorReply := "An error occurred while setting the reminder."

  /** A text that starts with `/` never parses as a time, stripped or not. */
  lemma SlashTextRefused(text: string)
    requires text != [] && text[0] == '/'
    ensures ParseClock(Strip(text)) == None
  {
    var r := Strip(text);
    var i, j :| 0 <= i <= j <= |text| && r == text[i..j]
                && (forall k :: 0 <= k < i ==> IsSpace(text[k]))
                && (forall k :: j <= k < |text| ==> IsSpace(text[k]));
    if r != [] {
      assert !IsSpace(text[0]);
      assert i == 0;
      assert r[0] == '/';
      assert HourWidth(r) == 0;
    }
  }

  /**
   * The text `set_reminder` receives is the `/set_reminder` command message itself, so as written
   * it always answers the invalid-format text and registers nothing, whatever follows the command.
   */
  lemma CommandTextRefused(w: string)
    ensures ParseClock(Strip("/set_reminder " + w)) == None
  {
    SlashTextRefused("/set_reminder " + w);
  }

  /** `context.args` of a command handler: the words of the message after the command word. */
  function CommandArgs(text: string): (args: seq<string>)
    ensures |args| == if SplitWords(text) == [] then 0 else |SplitWords(text)| - 1
  {
    var words := SplitWords(text);
    if words == [] then [] else words[1..]
  }

  /**
   * `set_reminder` as evidently intended: the time is the command's first argument
   * `context.args[0]`, the way `set_weather_updates` reads its own. Without an argument the
   * IndexError reaches the handler's generic `except` and its error reply.
   */
  method SetReminderFromArgs(q: JobQueue, args: seq<string>, chatId: int, offsetMinutes: int) returns (reply: string)
    modifies q
    ensures args == [] ==> q.jobs == old(q.jobs) && reply == SetReminderErrorReply
    ensures args != [] && ParseClock(args[0]).None? ==> q.jobs == old(q.jobs) && reply == InvalidTimeReply
    ensures args != [] && ParseClock(args[0]).Some? ==>
              var t := ParseClock(args[0]).value;
              && q.jobs == old(q.jobs) + [ReminderJob(chatId, ToUtc(t, offsetMinutes))]
              && reply == SetReply(t)
    ensures args != [] && ParseClock(args[0]).Some? && |args[0]| == 5 ==>
              reply == "Reminder set for " + args[0] + " UTC."
    ensures ForeignUpdate(old(q.jobs), q.jobs)
  {
    if args == [] {
      reply := SetReminderErrorReply;
      return;
    }
    var userTime := ParseClock(args[0]);
    if userTime.None? {
      reply := InvalidTimeReply;
      return;
    }
    var utcTime := ToUtc(userTime.value, offsetMinutes);
    var _ := q.RunDaily(DailyReminder, utcTime, chatId, ReminderName(chatId), map[]);
    reply := SetReply(userTime.value);
    if |args[0]| == 5 {
      FormatParse(args[0]);
    }
  }

  /** The command word carries no blank, so `/set_reminder WORD` has exactly the argument WORD. */
  lemma CommandArgsOfOneWord(w: string)
    requires w != [] && NoSpace(w)
    ensures CommandArgs("/set_reminder " + w) == [w]
  {
    assert NoSpace("/set_reminder");
    SplitTwoWords("/set_reminder", w);
    assert "/set_reminder" + " " + w == "/set_reminder " + w;
  }

  /**
   * What the help text promises: `/set_reminder HH:MM` for any valid time hands the intended
   * handler an argument that parses to that very time (so `SetReminderFromArgs` registers it),
   * while the handler as written refuses the same message.
   */
  lemma CommandReminderRoundTrip(t: TimeOfDay)
    requires Valid(t)
    ensures var args := CommandArgs("/set_reminder " + FormatClock(t));
            args == [FormatClock(t)] && ParseClock(args[0]) == Some(t)
    ensures ParseClock(Strip("/set_reminder " + FormatClock(t))) == None
  {
    var s := FormatClock(t);
    assert NoSpace(s) by {
      forall k | 0 <= k < |s| ensures !IsSpace(s[k]) {
        assert IsDigit(s[k]) || s[k] == ':';
      }
    }
    CommandArgsOfOneWord(s);
    ParseFormat(t);
    CommandTextRefused(s);
  }

  /** Stopping twice: the second stop finds nothing and says so. */
  lemma StopTwice(jobs: seq<Job>, chatId: int)
    ensures var once := MarkRemoved(jobs, Matching(jobs, ReminderName(chatId)));
            Matching(once, ReminderName(chatId)) == [] && MarkRemoved(once, []) == once
  {
    RemovingMatchesLeavesNone(jobs, ReminderName(chatId));
  }

  /**
   * Setting a reminder twice leaves two live daily jobs under the chat's name: registration
   * appends, it does not replace.
   */
  lemma {:induction false} TwoRemindersCoexist(jobs: seq<Job>, chatId: int, t1: TimeOfDay, t2: TimeOfDay)
    requires Matching(jobs, ReminderName(chatId)) == []
    ensures Matching(jobs + [ReminderJob(chatId, t1)] + [ReminderJob(chatId, t2)], ReminderName(chatId))
         == [|jobs|, |jobs| + 1]
  {
    MatchingAppend(jobs, ReminderJob(chatId, t1), ReminderName(chatId));
    MatchingAppend(jobs + [ReminderJob(chatId, t1)], ReminderJob(chatId, t2), ReminderName(chatId));
  }

  /** Reminder names of different chats differ, so stopping one chat's reminder spares the others. */
  lemma ReminderNamesDistinct(c1: int, c2: int)
    requires c1 != c2
    ensures ReminderName(c1) != ReminderName(c2)
  {
    if ReminderName(c1) == ReminderName(c2) {
      IntToStringInjective(c1, c2);
    }
  }
}
