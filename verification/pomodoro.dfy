/**
 * The pomodoro session manager: the table `active_pomodoros` (user id -> the jobs of that user's
 * session) and the four operations that drive it: start, stop, and the two job callbacks that
 * end the work phase and the break phase.
 */
module Pomodoro {
  import opened Wrappers
  import opened Text
  import opened Jobs

  const DefaultWorkMinutes: nat := 25
  const DefaultBreakMinutes: nat := 5

  const AlreadyRunningReply := "You already have a pomodoro session! Use /stop_pomodoro to cancel it."
  const StartedReply := "Pomodoro started! Focus for 25 minutes."
  // The typo "sessins" is the bot's own text.
  const NothingToStopReply := "You don't have any active Pomodoro sessins to stop."
  const StoppedReply := "Pomodoro session stopped."
  const WorkDoneText := "Work session complete! Time for a 5-minute break."
  const BreakDoneText := "Break time over! Pomodoro session complete."

  function WorkJobName(u: int): string { "pomodoro_work_" + IntToString(u) }

  function BreakJobName(u: int): string { "Pomodoro break_" + IntToString(u) }

  /** `data[key]` when it holds an integer; None stands for the KeyError (or a non-integer). */
  function IntField(data: Data, key: string): Option<int>
  {
    if key in data && data[key].IntVal? then Some(data[key].i) else None
  }

  /** The job that `start_pomodoro` registers: it fires 25 minutes after `now`. */
  function WorkJob(u: int, chatId: int, now: int): Job
  {
    Job(PomodoroWorkEnd, Once(now + DefaultWorkMinutes * 60), chatId, WorkJobName(u),
        map["user_id" := IntVal(u), "break_duration" := IntVal(DefaultBreakMinutes * 60)], false)
  }

  /** The job that the end of the work phase registers, due at `due`. */
  function BreakJob(u: int, chatId: int, due: int): Job
  {
    Job(PomodoroBreakEnd, Once(due), chatId, BreakJobName(u), map["user_id" := IntVal(u)], false)
  }

  predicate IsWorkJobOf(j: Job, u: int)
  {
    && j.callback == PomodoroWorkEnd && j.schedule.Once? && j.name == WorkJobName(u)
    && IntField(j.data, "user_id") == Some(u) && IntField(j.data, "break_duration").Some?
  }

  predicate IsBreakJobOf(j: Job, u: int)
  {
    j.callback == PomodoroBreakEnd && j.schedule.Once? && j.name == BreakJobName(u) && IntField(j.data, "user_id") == Some(u)
  }

  /** Every job the table refers to exists in the queue. */
  predicate HandlesIn(active: map<int, seq<nat>>, jobs: seq<Job>)
  {
    forall u, i :: u in active && 0 <= i < |active[u]| ==> active[u][i] < |jobs|
  }

  /** A session's job list: the work job alone, or the work job followed by the break job. */
  predicate SessionShape(hs: seq<nat>, jobs: seq<Job>, u: int)
  {
    && (|hs| == 1 || |hs| == 2)
    && hs[0] < |jobs| && IsWorkJobOf(jobs[hs[0]], u)
    && (|hs| == 2 ==> hs[1] < |jobs| && IsBreakJobOf(jobs[hs[1]], u))
  }

  /**
   * The table and the queue agree: every session has the shape above, a live work job is the only
   * job of its user's session, and a live break job is the second job of its user's session. So
   * no pomodoro job runs without a session to act on, and stopping a session reaches every job of it.
   */
  ghost predicate Consistent(active: map<int, seq<nat>>, jobs: seq<Job>)
  {
    && (forall u :: u in active ==> SessionShape(active[u], jobs, u))
    && (forall h :: Live(jobs, h) && jobs[h].callback == PomodoroWorkEnd ==>
          var u := IntField(jobs[h].data, "user_id");
          u.Some? && u.value in active && active[u.value] == [h])
    && (forall h :: Live(jobs, h) && jobs[h].callback == PomodoroBreakEnd ==>
          var u := IntField(jobs[h].data, "user_id");
          u.Some? && u.value in active && |active[u.value]| == 2 && active[u.value][1] == h)
  }

  lemma ConsistentHandlesIn(active: map<int, seq<nat>>, jobs: seq<Job>)
    requires Consistent(active, jobs)
    ensures HandlesIn(active, jobs)
  {
  }

  /** Starting a session for a user without one keeps the table and the queue consistent. */
  lemma StartKeeps(active: map<int, seq<nat>>, jobs: seq<Job>, u: int, chatId: int, now: int)
    requires Consistent(active, jobs) && u !in active
    ensures Consistent(active[u := [|jobs|]], jobs + [WorkJob(u, chatId, now)])
  {
    var active', jobs' := active[u := [|jobs|]], jobs + [WorkJob(u, chatId, now)];
    forall v | v in active' ensures SessionShape(active'[v], jobs', v) {
      if v != u {
        assert SessionShape(active[v], jobs, v);
      }
    }
    forall h | Live(jobs', h) && jobs'[h].callback == PomodoroWorkEnd
      ensures var v := IntField(jobs'[h].data, "user_id"); v.Some? && v.value in active' && active'[v.value] == [h]
    {
      if h < |jobs| {
        assert jobs'[h] == jobs[h];
      }
    }
    forall h | Live(jobs', h) && jobs'[h].callback == PomodoroBreakEnd
      ensures var v := IntField(jobs'[h].data, "user_id");
              v.Some? && v.value in active' && |active'[v.value]| == 2 && active'[v.value][1] == h
    {
      assert h < |jobs| && jobs'[h] == jobs[h];
    }
  }

  /** Stopping a session keeps the table and the queue consistent and leaves none of its jobs live. */
  lemma StopKeeps(active: map<int, seq<nat>>, jobs: seq<Job>, u: int)
    requires Consistent(active, jobs) && u in active
    ensures Consistent(active - {u}, MarkRemoved(jobs, active[u]))
    ensures forall i :: 0 <= i < |active[u]| ==> !Live(MarkRemoved(jobs, active[u]), active[u][i])
  {
    var active', jobs' := active - {u}, MarkRemoved(jobs, active[u]);
    forall v | v in active' ensures SessionShape(active'[v], jobs', v) {
      assert SessionShape(active[v], jobs, v);
    }
    forall h | Live(jobs', h) && jobs'[h].callback == PomodoroWorkEnd
      ensures var v := IntField(jobs'[h].data, "user_id"); v.Some? && v.value in active' && active'[v.value] == [h]
    {
      assert h !in active[u] && jobs'[h] == jobs[h];
    }
    forall h | Live(jobs', h) && jobs'[h].callback == PomodoroBreakEnd
      ensures var v := IntField(jobs'[h].data, "user_id");
              v.Some? && v.value in active' && |active'[v.value]| == 2 && active'[v.value][1] == h
    {
      assert h !in active[u] && jobs'[h] == jobs[h];
      var v := IntField(jobs[h].data, "user_id").value;
      assert active[v][1] == h;
      assert v != u;
    }
  }

  /**
   * When the scheduler runs a live work job, its user has a session holding just that job, so the
   * callback succeeds; afterwards the session holds the work job and the new break job.
   */
  lemma WorkEndKeeps(active: map<int, seq<nat>>, jobs: seq<Job>, h: nat, now: int)
    requires Consistent(active, jobs) && Live(jobs, h) && jobs[h].callback == PomodoroWorkEnd
    ensures var u, bd := IntField(jobs[h].data, "user_id"), IntField(jobs[h].data, "break_duration");
            && u.Some? && bd.Some? && u.value in active && active[u.value] == [h]
            && Consistent(active[u.value := [h, |jobs|]],
                          jobs[h := jobs[h].(removed := true)] + [BreakJob(u.value, jobs[h].chatId, now + bd.value)])
  {
    var u := IntField(jobs[h].data, "user_id").value;
    assert SessionShape(active[u], jobs, u);
    var bd := IntField(jobs[h].data, "break_duration").value;
    var active' := active[u := [h, |jobs|]];
    var jobs' := jobs[h := jobs[h].(removed := true)] + [BreakJob(u, jobs[h].chatId, now + bd)];
    forall v | v in active' ensures SessionShape(active'[v], jobs', v) {
      if v != u {
        assert SessionShape(active[v], jobs, v);
        assert forall i :: 0 <= i < |active[v]| ==> active[v][i] < |jobs| && jobs'[active[v][i]].name == jobs[active[v][i]].name;
      }
    }
    forall g | Live(jobs', g) && jobs'[g].callback == PomodoroWorkEnd
      ensures var v := IntField(jobs'[g].data, "user_id"); v.Some? && v.value in active' && active'[v.value] == [g]
    {
      assert g < |jobs| && g != h && jobs'[g] == jobs[g];
      var v := IntField(jobs[g].data, "user_id").value;
      assert v != u;
    }
    forall g | Live(jobs', g) && jobs'[g].callback == PomodoroBreakEnd
      ensures var v := IntField(jobs'[g].data, "user_id");
              v.Some? && v.value in active' && |active'[v.value]| == 2 && active'[v.value][1] == g
    {
      if g < |jobs| {
        assert jobs'[g] == jobs[g];
        var v := IntField(jobs[g].data, "user_id").value;
        assert |active[v]| == 2;
        assert v != u;
      }
    }
  }

  /** When the scheduler runs a live break job, removing its user's session keeps things consistent. */
  lemma BreakEndKeeps(active: map<int, seq<nat>>, jobs: seq<Job>, h: nat)
    requires Consistent(active, jobs) && Live(jobs, h) && jobs[h].callback == PomodoroBreakEnd
    ensures var u := IntField(jobs[h].data, "user_id");
            && u.Some? && u.value in active && |active[u.value]| == 2 && active[u.value][1] == h
            && Consistent(active - {u.value}, jobs[h := jobs[h].(removed := true)])
  {
    var u := IntField(jobs[h].data, "user_id").value;
    var active', jobs' := active - {u}, jobs[h := jobs[h].(removed := true)];
    forall v | v in active' ensures SessionShape(active'[v], jobs', v) {
      assert SessionShape(active[v], jobs, v);
    }
    forall g | Live(jobs', g) && jobs'[g].callback == PomodoroWorkEnd
      ensures var v := IntField(jobs'[g].data, "user_id"); v.Some? && v.value in active' && active'[v.value] == [g]
    {
      assert jobs'[g] == jobs[g];
    }
    forall g | Live(jobs', g) && jobs'[g].callback == PomodoroBreakEnd
      ensures var v := IntField(jobs'[g].data, "user_id");
              v.Some? && v.value in active' && |active'[v.value]| == 2 && active'[v.value][1] == g
    {
      assert g != h && jobs'[g] == jobs[g];
    }
  }

  /** Removing jobs and adding jobs of other kinds never breaks the pomodoro table's consistency. */
  lemma ForeignKeeps(active: map<int, seq<nat>>, before: seq<Job>, after: seq<Job>)
    requires Consistent(active, before) && ForeignUpdate(before, after)
    ensures Consistent(active, after)
  {
    forall v | v in active ensures SessionShape(active[v], after, v) {
      assert SessionShape(active[v], before, v);
    }
    forall g | Live(after, g) && after[g].callback == PomodoroWorkEnd
      ensures var v := IntField(after[g].data, "user_id"); v.Some? && v.value in active && active[v.value] == [g]
    {
      assert g < |before| && after[g] == before[g];
    }
    forall g | Live(after, g) && after[g].callback == PomodoroBreakEnd
      ensures var v := IntField(after[g].data, "user_id");
              v.Some? && v.value in active && |active[v.value]| == 2 && active[v.value][1] == g
    {
      assert g < |before| && after[g] == before[g];
    }
  }

  /** The module-level table `active_pomodoros`. */
  class Pomodoros {
    var active: map<int, seq<nat>>

    constructor ()
      ensures active == map[]
    {
      active := map[];
    }

    /**
     * `start_pomodoro`: a user who already has a session only gets a reply; otherwise one work
     * job is registered and becomes the user's whole session.
     */
    method Start(q: JobQueue, userId: int, chatId: int, now: int) returns (reply: string)
      modifies this, q
      ensures userId in old(active) ==>
                active == old(active) && q.jobs == old(q.jobs) && reply == AlreadyRunningReply
      ensures userId !in old(active) ==>
                && q.jobs == old(q.jobs) + [WorkJob(userId, chatId, now)]
                && active == old(active)[userId := [|old(q.jobs)|]]
                && reply == StartedReply
      ensures Consistent(old(active), old(q.jobs)) ==> Consistent(active, q.jobs)
    {
      if userId in active {
        reply := AlreadyRunningReply;
        return;
      }
      var workDuration := DefaultWorkMinutes * 60;
      var breakDuration := DefaultBreakMinutes * 60;
      var h := q.RunOnce(PomodoroWorkEnd, now + workDuration, chatId, WorkJobName(userId),
                         map["user_id" := IntVal(userId), "break_duration" := IntVal(breakDuration)]);
      active := active[userId := [h]];
      reply := StartedReply;
      if Consistent(old(active), old(q.jobs)) {
        StartKeeps(old(active), old(q.jobs), userId, chatId, now);
      }
    }

    /**
     * `stop_pomodoro`: without a session, only a reply; otherwise every job of the session is
     * removed from the queue and then the session is deleted. Other users' sessions are untouched.
     */
    method Stop(q: JobQueue, userId: int) returns (reply: string)
      requires HandlesIn(active, q.jobs)
      modifies this, q
      ensures userId !in old(active) ==>
                active == old(active) && q.jobs == old(q.jobs) && reply == NothingToStopReply
      ensures userId in old(active) ==>
                && q.jobs == MarkRemoved(old(q.jobs), old(active)[userId])
                && active == old(active) - {userId}
                && reply == StoppedReply
      ensures HandlesIn(active, q.jobs)
      ensures Consistent(old(active), old(q.jobs)) ==> Consistent(active, q.jobs)
    {
      if userId !in active {
        reply := NothingToStopReply;
        return;
      }
      var hs := active[userId];
      var i := 0;
      while i < |hs|
        invariant 0 <= i <= |hs|
        invariant active == old(active)
        invariant q.jobs == MarkRemoved(old(q.jobs), hs[..i])
      {
        MarkRemovedStep(old(q.jobs), hs, i);
        q.ScheduleRemoval(hs[i]);
        i := i + 1;
      }
      assert hs[..i] == hs;
      active := active - {userId};
      reply := StoppedReply;
      if Consistent(old(active), old(q.jobs)) {
        StopKeeps(old(active), old(q.jobs), userId);
      }
    }

    /**
     * `pomodoro_work_end`, run for job `h`: read the user and the break length from the job's
     * data, tell the chat the work phase is over, register the break job, and append it to the
     * user's session. A user without a session makes the last step fail with the break job
     * already registered.
     */
    method WorkEnd(q: JobQueue, h: nat, now: int) returns (sent: seq<Message>, raised: bool)
      requires h < |q.jobs| && HandlesIn(active, q.jobs)
      modifies this, q
      ensures HandlesIn(active, q.jobs)
      ensures var job := old(q.jobs)[h];
              var u, bd := IntField(job.data, "user_id"), IntField(job.data, "break_duration");
              if u.None? || bd.None? then
                raised && sent == [] && active == old(active) && q.jobs == old(q.jobs)
              else
                && sent == [Message(job.chatId, WorkDoneText)]
                && q.jobs == old(q.jobs) + [BreakJob(u.value, job.chatId, now + bd.value)]
                && raised == (u.value !in old(active))
                && active == if raised then old(active)
                             else old(active)[u.value := old(active)[u.value] + [|old(q.jobs)|]]
    {
      var job := q.jobs[h];
      var userId := IntField(job.data, "user_id");
      var breakDuration := IntField(job.data, "break_duration");
      if userId.None? || breakDuration.None? {
        sent, raised := [], true;
        return;
      }
      var u := userId.value;
      sent := [Message(job.chatId, WorkDoneText)];
      var b := q.RunOnce(PomodoroBreakEnd, now + breakDuration.value, job.chatId, BreakJobName(u),
                         map["user_id" := IntVal(u)]);
      if u !in active {
        raised := true;
        return;
      }
      active := active[u := active[u] + [b]];
      raised := false;
    }

    /**
     * `pomodoro_break_end`, run for job `h`: tell the chat the session is complete and delete the
     * user's session if there still is one.
     */
    method BreakEnd(q: JobQueue, h: nat) returns (sent: seq<Message>, raised: bool)
      requires h < |q.jobs|
      modifies this
      ensures var job := q.jobs[h];
              var u := IntField(job.data, "user_id");
              if u.None? then raised && sent == [] && active == old(active)
              else !raised && sent == [Message(job.chatId, BreakDoneText)] && active == old(active) - {u.value}
    {
      var job := q.jobs[h];
      var userId := IntField(job.data, "user_id");
      if userId.None? {
        sent, raised := [], true;
        return;
      }
      sent, raised := [Message(job.chatId, BreakDoneText)], false;
      if userId.value in active {
        active := active - {userId.value};
      }
    }
  }
}
