/**
 * The bot's job queue (python-telegram-bot's JobQueue), reduced to what the bot uses of it:
 * `run_once`, `run_daily`, `get_jobs_by_name`, `Job.schedule_removal`, and the scheduler taking
 * a due job to run its callback. Jobs are never deleted from the model's sequence; a job object
 * is its index in that sequence (its handle), so handles held elsewhere stay valid.
 */
module Jobs {
  import opened Wrappers
  import Clock

  /** A value stored in a job's `data` dictionary. */
  datatype Value = IntVal(i: int) | StrVal(s: string)

  type Data = map<string, Value>

  /** The callback a job runs when it fires. */
  datatype Callback = PomodoroWorkEnd | PomodoroBreakEnd | DailyReminder | SendDailyWeather

  /** `run_once(when=at)`, an instant in seconds, or `run_daily(time=t)`, a UTC time of day. */
  datatype Schedule = Once(at: int) | Daily(time: Clock.TimeOfDay)

  datatype Job = Job(callback: Callback, schedule: Schedule, chatId: int, name: string, data: Data, removed: bool)

  /** `bot.send_message(chat_id, text)`. */
  datatype Message = Message(chatId: int, text: string)

  predicate IsPomodoro(c: Callback)
  {
    c == PomodoroWorkEnd || c == PomodoroBreakEnd
  }

  /** Job `h` is still in the scheduler: it exists and has been neither removed nor run (if once). */
  predicate Live(jobs: seq<Job>, h: int)
  {
    0 <= h < |jobs| && !jobs[h].removed
  }

  /** Handles of the live jobs called `name`, in queue order. */
  function Matching(jobs: seq<Job>, name: string): (hs: seq<nat>)
  {
    if jobs == [] then []
    else
      var k := |jobs| - 1;
      Matching(jobs[..k], name) + (if !jobs[k].removed && jobs[k].name == name then [k] else [])
  }

  lemma {:induction false} MatchingMeaning(jobs: seq<Job>, name: string)
    ensures forall h :: h in Matching(jobs, name) <==> Live(jobs, h) && jobs[h].name == name
    ensures forall i, j :: 0 <= i < j < |Matching(jobs, name)| ==> Matching(jobs, name)[i] < Matching(jobs, name)[j]
  {
    if jobs != [] {
      var k := |jobs| - 1;
      MatchingMeaning(jobs[..k], name);
      var hs := Matching(jobs[..k], name);
      var ms := Matching(jobs, name);
      assert forall h :: h in hs ==> h < k;
      forall i, j | 0 <= i < j < |ms|
        ensures ms[i] < ms[j]
      {
        if j >= |hs| {
          assert ms[j] == k && ms[i] == hs[i];
          assert hs[i] in hs;
        }
      }
    }
  }

  lemma MatchingAt(jobs: seq<Job>, name: string, i: nat)
    requires i < |Matching(jobs, name)|
    ensures Live(jobs, Matching(jobs, name)[i]) && jobs[Matching(jobs, name)[i]].name == name
  {
    MatchingMeaning(jobs, name);
    assert Matching(jobs, name)[i] in Matching(jobs, name);
  }

  /** Appending a job leaves the earlier matches alone and adds the new job if it matches. */
  lemma MatchingAppend(jobs: seq<Job>, j: Job, name: string)
    ensures Matching(jobs + [j], name)
         == Matching(jobs, name) + (if !j.removed && j.name == name then [|jobs|] else [])
  {
    assert (jobs + [j])[..|jobs|] == jobs;
  }

  /** `jobs` after `schedule_removal()` on every job in `hs`. */
  function MarkRemoved(jobs: seq<Job>, hs: seq<nat>): seq<Job>
  {
    seq(|jobs|, h requires 0 <= h < |jobs| => if h in hs then jobs[h].(removed := true) else jobs[h])
  }

  lemma MarkRemovedStep(jobs: seq<Job>, hs: seq<nat>, k: nat)
    requires k < |hs| && hs[k] < |jobs|
    ensures MarkRemoved(jobs, hs[..k + 1])
         == MarkRemoved(jobs, hs[..k])[hs[k] := MarkRemoved(jobs, hs[..k])[hs[k]].(removed := true)]
  {
    assert forall h :: h in hs[..k + 1] <==> h in hs[..k] || h == hs[k] by {
      assert hs[..k + 1] == hs[..k] + [hs[k]];
    }
  }

  /** After removing every match of `name`, no live job is called `name`. */
  lemma {:induction false} RemovingMatchesLeavesNone(jobs: seq<Job>, name: string)
    ensures Matching(MarkRemoved(jobs, Matching(jobs, name)), name) == []
  {
    var after := MarkRemoved(jobs, Matching(jobs, name));
    MatchingMeaning(jobs, name);
    MatchingMeaning(after, name);
    if Matching(after, name) != [] {
      MatchingAt(after, name, 0);
      assert false;
    }
  }

  /**
   * `after` is `before` with some jobs marked removed and jobs other than pomodoro jobs
   * appended: what the reminder and weather code may do to the queue.
   */
  ghost predicate ForeignUpdate(before: seq<Job>, after: seq<Job>)
  {
    && |before| <= |after|
    && (forall h :: 0 <= h < |before| ==> after[h] == before[h] || after[h] == before[h].(removed := true))
    && (forall h :: |before| <= h < |after| ==> !IsPomodoro(after[h].callback))
  }

  class JobQueue {
    var jobs: seq<Job>

    constructor ()
      ensures jobs == []
    {
      jobs := [];
    }

    /** `run_once(callback, when=at, chat_id, name, data)`: the new job goes last and is live. */
    method RunOnce(callback: Callback, at: int, chatId: int, name: string, data: Data) returns (h: nat)
      modifies this
      ensures h == |old(jobs)|
      ensures jobs == old(jobs) + [Job(callback, Once(at), chatId, name, data, false)]
      ensures Live(jobs, h)
    {
      h := |jobs|;
      jobs := jobs + [Job(callback, Once(at), chatId, name, data, false)];
    }

    /**
     * `run_daily(callback, time, chat_id, name, data)`. A job already registered under the same
     * name stays registered: nothing is replaced.
     */
    method RunDaily(callback: Callback, time: Clock.TimeOfDay, chatId: int, name: string, data: Data)
      returns (h: nat)
      modifies this
      ensures h == |old(jobs)|
      ensures jobs == old(jobs) + [Job(callback, Daily(time), chatId, name, data, false)]
      ensures Matching(jobs, name) == Matching(old(jobs), name) + [h]
    {
      h := |jobs|;
      MatchingAppend(jobs, Job(callback, Daily(time), chatId, name, data, false), name);
      jobs := jobs + [Job(callback, Daily(time), chatId, name, data, false)];
    }

    /** `get_jobs_by_name(name)`: every live job with that name, in queue order. */
    method GetJobsByName(name: string) returns (hs: seq<nat>)
      ensures hs == Matching(jobs, name)
      ensures forall h :: h in hs <==> Live(jobs, h) && jobs[h].name == name
    {
      hs := [];
      var i := 0;
      while i < |jobs|
        invariant 0 <= i <= |jobs|
        invariant hs == Matching(jobs[..i], name)
      {
        assert jobs[..i + 1][..i] == jobs[..i];
        if !jobs[i].removed && jobs[i].name == name {
          hs := hs + [i];
        }
        i := i + 1;
      }
      assert jobs[..i] == jobs;
      MatchingMeaning(jobs, name);
    }

    /** `job.schedule_removal()`: the job will not run again; nothing else changes. */
    method ScheduleRemoval(h: nat)
      requires h < |jobs|
      modifies this
      ensures jobs == old(jobs)[h := old(jobs)[h].(removed := true)]
    {
      jobs := jobs[h := jobs[h].(removed := true)];
    }

    /**
     * The scheduler takes job `h` to run its callback. A job no longer in the scheduler yields
     * None; a once-job is used up by running, a daily job stays for the next day.
     */
    method Take(h: nat) returns (job: Option<Job>)
      modifies this
      ensures !Live(old(jobs), h) ==> job == None && jobs == old(jobs)
      ensures Live(old(jobs), h) ==> job == Some(old(jobs)[h])
      ensures Live(old(jobs), h) && old(jobs)[h].schedule.Once? ==>
                jobs == old(jobs)[h := old(jobs)[h].(removed := true)]
      ensures Live(old(jobs), h) && old(jobs)[h].schedule.Daily? ==> jobs == old(jobs) && Live(jobs, h)
    {
      if h < |jobs| && !jobs[h].removed {
        job := Some(jobs[h]);
        if jobs[h].schedule.Once? {
          jobs := jobs[h := jobs[h].(removed := true)];
        }
      } else {
        job := None;
      }
    }
  }
}
