/**
 * The scheduler's side of the job queue: when a job's time comes it is taken from the queue (a
 * one-shot job is consumed, a daily job stays) and its callback runs. The four callbacks the bot
 * registers are the two pomodoro phase ends, the daily coding reminder and the daily weather push.
 */
module Dispatch {
  import opened Wrappers
  import opened Jobs
  import opened Pomodoro
  import Reminders
  import Weather

  /** `daily_reminder`: the reminder text goes to the job's chat. */
  function ReminderMessage(job: Job): Message
  {
    Message(job.chatId, Reminders.ReminderText)
  }

  /** The reminder registered for a chat reminds that chat, every day. */
  lemma ReminderReachesItsChat(chatId: int, utc: Clock.TimeOfDay)
    ensures ReminderMessage(Reminders.ReminderJob(chatId, utc)) == Message(chatId, Reminders.ReminderText)
    ensures Reminders.ReminderJob(chatId, utc).schedule.Daily?
  {
  }

  /** Taking a job from the queue is a change that pomodoro sessions do not notice, unless it is theirs. */
  lemma TakeOtherIsForeign(jobs: seq<Job>, h: nat)
    requires h < |jobs| && !IsPomodoro(jobs[h].callback)
    ensures ForeignUpdate(jobs, jobs[h := jobs[h].(removed := true)])
  {
  }

  /** A due work-phase job: it is consumed, and the break phase of its session begins. */
  method FireWorkEnd(q: JobQueue, p: Pomodoros, h: nat, now: int) returns (sent: seq<Message>)
    requires Consistent(p.active, q.jobs) && Live(q.jobs, h) && q.jobs[h].callback == PomodoroWorkEnd
    modifies q, p
    ensures Consistent(p.active, q.jobs)
    ensures var job := old(q.jobs)[h];
            var u := IntField(job.data, "user_id").value;
            && sent == [Message(job.chatId, WorkDoneText)]
            && p.active == old(p.active)[u := [h, |old(q.jobs)|]]
            && q.jobs == old(q.jobs)[h := job.(removed := true)]
                 + [BreakJob(u, job.chatId, now + IntField(job.data, "break_duration").value)]
  {
    ghost var jobs0 := q.jobs;
    WorkEndKeeps(p.active, jobs0, h, now);
    ConsistentHandlesIn(p.active, jobs0);
    var taken := q.Take(h);
    ghost var u := IntField(jobs0[h].data, "user_id").value;
    assert [h] + [|jobs0|] == [h, |jobs0|];
    var raised;
    sent, raised := p.WorkEnd(q, h, now);
  }

  /** A due break-phase job: it is consumed, and its session ends. */
  method FireBreakEnd(q: JobQueue, p: Pomodoros, h: nat) returns (sent: seq<Message>)
    requires Consistent(p.active, q.jobs) && Live(q.jobs, h) && q.jobs[h].callback == PomodoroBreakEnd
    modifies q, p
    ensures Consistent(p.active, q.jobs)
    ensures var job := old(q.jobs)[h];
            && sent == [Message(job.chatId, BreakDoneText)]
            && p.active == old(p.active) - {IntField(job.data, "user_id").value}
            && q.jobs == old(q.jobs)[h := job.(removed := true)]
  {
    BreakEndKeeps(p.active, q.jobs, h);
    var taken := q.Take(h);
    var raised;
    sent, raised := p.BreakEnd(q, h);
  }

  /** A due reminder or weather job: it runs (and is consumed only if it was one-shot). */
  method FireOther(q: JobQueue, p: Pomodoros, h: nat, getWeather: string -> string) returns (sent: seq<Message>)
    requires Consistent(p.active, q.jobs) && Live(q.jobs, h) && !IsPomodoro(q.jobs[h].callback)
    modifies q
    ensures Consistent(p.active, q.jobs)
    ensures var job := old(q.jobs)[h];
            && sent == (if job.callback == DailyReminder then [ReminderMessage(job)]
                        else match Weather.DailyWeatherMessage(job.data, getWeather)
                             case None => []
                             case Some(m) => [m])
            && q.jobs == (if job.schedule.Daily? then old(q.jobs) else old(q.jobs)[h := job.(removed := true)])
  {
    ghost var jobs0 := q.jobs;
    var taken := q.Take(h);
    var job := taken.value;
    if job.callback == DailyReminder {
      sent := [ReminderMessage(job)];
    } else {
      var m := Weather.DailyWeatherMessage(job.data, getWeather);
      sent := if m.Some? then [m.value] else [];
    }
    if job.schedule.Once? {
      TakeOtherIsForeign(jobs0, h);
    }
    ForeignKeeps(p.active, jobs0, q.jobs);
  }

  /**
   * The job with handle `h` comes due at time `now`: it is taken from the queue and its callback
   * runs; `sent` is what it sends. A job that was removed or already consumed does nothing. The
   * agreement between the pomodoro table and the queue survives every run.
   */
  method RunJob(q: JobQueue, p: Pomodoros, h: nat, now: int, getWeather: string -> string)
    returns (sent: seq<Message>)
    requires Consistent(p.active, q.jobs)
    modifies q, p
    ensures Consistent(p.active, q.jobs)
    ensures !Live(old(q.jobs), h) ==> sent == [] && q.jobs == old(q.jobs) && p.active == old(p.active)
    ensures Live(old(q.jobs), h) && !IsPomodoro(old(q.jobs)[h].callback) ==> p.active == old(p.active)
    ensures Live(old(q.jobs), h) && old(q.jobs)[h].schedule.Daily? ==> q.jobs == old(q.jobs)
  {
    if !(h < |q.jobs| && !q.jobs[h].removed) {
      sent := [];
      return;
    }
    match q.jobs[h].callback {
      case PomodoroWorkEnd =>
        sent := FireWorkEnd(q, p, h, now);
      case PomodoroBreakEnd =>
        sent := FireBreakEnd(q, p, h);
      case _ =>
        sent := FireOther(q, p, h, getWeather);
    }
  }
}
