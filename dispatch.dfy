/**
 * The day driver of bot/src/main.rs: `main_today` walks the day's timeline against
 * the clock, skipping what was missed by more than 15 minutes, sleeping until what
 * lies ahead, and handing each event to the webhook manager; `main` clears the
 * manager's messages and runs one day after another.
 *
 * The clock is an integer count of nanoseconds (see `Chrono`). Each sleep returns
 * at or after the instant it was asked for: how much after, and how long each
 * dispatch takes, are inputs, as are the webhook's answers.
 */
module Dispatch {
  import opened Wrappers
  import opened Chrono
  import opened Sched
  import opened Webhook
  import opened Timeline

  /** `upcoming_time`: the Upcoming notice goes out 15 minutes before the start. */
  const UpcomingMinutes: int := 15

  /** An event more than 15 minutes in the past is skipped. */
  const MissedThreshold: int := 15 * NanosPerMinute

  datatype Decision = Skip | Wait | Immediate

  /**
   * The per-event decision of `main_today`, with `diff = instant - now`: skip when
   * `-diff` exceeds the threshold, otherwise sleep first when `diff` is positive,
   * otherwise dispatch at once.
   */
  function Classify(instant: int, now: int): (d: Decision)
    ensures d == Skip <==> now - instant > MissedThreshold
    ensures d == Wait <==> instant > now
    ensures d == Immediate <==> instant <= now <= instant + MissedThreshold
  {
    var diff := instant - now;
    if -diff > MissedThreshold then Skip
    else if diff > 0 then Wait
    else Immediate
  }

  /**
   * Started at 09:30 on the day of a class from 09:00 to 10:00: the notice due at
   * 08:45 and the start at 09:00 are skipped, the end is waited for.
   */
  lemma MidClassStart(date: Date)
    ensures var now := Instant(date, 570);
      && Classify(Instant(date, 525), now) == Skip
      && Classify(Instant(date, 540), now) == Skip
      && Classify(Instant(date, 600), now) == Wait
  {
  }

  /** A call on the webhook manager. */
  datatype ManagerCall =
    | SendUpcomingCall(cls: Class)
    | SetStartingCall(cls: Class)
    | DeleteCall(cls: Class)

  /** The manager method each phase is handed to. */
  function CallFor(e: Timed): (c: ManagerCall)
    ensures c.cls == e.cls
    ensures e.event == Upcoming <==> c.SendUpcomingCall?
    ensures e.event == Starting <==> c.SetStartingCall?
    ensures e.event == Ending <==> c.DeleteCall?
  {
    match e.event
    case Upcoming => SendUpcomingCall(e.cls)
    case Starting => SetStartingCall(e.cls)
    case Ending => DeleteCall(e.cls)
  }

  /**
   * What the outside world does during one day, event by event (by index into the
   * timeline): how far past its instant the sleep before an event returns, how long
   * an event's handling takes, and the webhook's answers to posts and deletes.
   */
  datatype DayEnv = DayEnv(
    overshoot: nat -> nat,
    busy: nat -> nat,
    post: nat -> PostResponse,
    deletion: nat -> DeleteResponse)

  /** One event of the day as it was handled. */
  datatype Step = Step(
    entry: Timed,
    instant: int,
    readAt: int,
    decision: Decision,
    dispatchedAt: int,
    call: Option<ManagerCall>,
    request: Option<Request>)

  /** The request a manager call issues, given the manager's `sent` before the call. */
  function RequestOf(url: string, sent: map<string, string>, call: ManagerCall): (r: Option<Request>)
    ensures call.SendUpcomingCall? ==> r.Some? && r.value.verb == POST
    ensures !call.SendUpcomingCall? ==> (r.Some? <==> call.cls.course in sent)
  {
    match call
    case SendUpcomingCall(c) =>
      Some(UpcomingRequest(url, c))
    case SetStartingCall(c) =>
      if c.course in sent
      then Some(StartingRequest(url, sent[c.course], c))
      else None
    case DeleteCall(c) =>
      if c.course in sent then Some(DeleteRequest(url, sent[c.course])) else None
  }

  /** The manager's `sent` after step `i` of the day. */
  function Effect(sent: map<string, string>, st: Step, env: DayEnv, i: nat): (after: map<string, string>)
  {
    match st.call
    case None => sent
    case Some(SendUpcomingCall(c)) => AfterUpcoming(sent, c.course, env.post(i))
    case Some(SetStartingCall(_)) => sent
    case Some(DeleteCall(c)) => AfterDelete(sent, c.course)
  }

  /** The timeline of a date: `events(schedule.classes_on_date(date), upcoming_time)`. */
  function DayTimeline(schedule: Schedule, date: Date): (tl: seq<Timed>)
    requires Valid(schedule)
  {
    SortByTime(Pushed(ClassesOnDate(schedule, date), UpcomingMinutes))
  }

  /** How one timeline entry was handled, given the manager's `sent` just before it. */
  ghost predicate StepFollows(url: string, sent: map<string, string>, date: Date, e: Timed, st: Step) {
    && st.entry == e
    && st.instant == Instant(date, e.time)
    && st.decision == Classify(st.instant, st.readAt)
    && st.call == (if st.decision == Skip then None else Some(CallFor(e)))
    && st.request == (if st.call.None? then None else RequestOf(url, sent, st.call.value))
    && (st.decision == Wait ==> st.dispatchedAt >= st.instant)
    && (st.decision != Wait ==> st.dispatchedAt == st.readAt)
  }

  /**
   * `states[i]` is the manager's `sent` before step `i` of `steps`, and each step
   * handled entry `i` of the timeline `tl` of `date` as `StepFollows` says and
   * changed `sent` as its call does.
   */
  ghost predicate Followed(url: string, date: Date, tl: seq<Timed>,
                           steps: seq<Step>, states: seq<map<string, string>>, env: DayEnv)
    decreases |steps|
  {
    && |steps| <= |tl|
    && |states| == |steps| + 1
    && if steps == [] then true
       else
         var n := |steps| - 1;
         && Followed(url, date, tl, steps[..n], states[..n + 1], env)
         && StepFollows(url, states[n], date, tl[n], steps[n])
         && states[n + 1] == Effect(states[n], steps[n], env, n)
  }

  /**
   * The clock, read at `start` and now at `end`, never runs backwards: each step
   * reads it, is dispatched no earlier, and the next step reads it no earlier.
   */
  ghost predicate Clocked(start: int, steps: seq<Step>, end: int)
    decreases |steps|
  {
    && start <= end
    && if steps == [] then true
       else
         var n := |steps| - 1;
         && Clocked(start, steps[..n], steps[n].readAt)
         && steps[n].readAt <= steps[n].dispatchedAt <= end
  }

  /** The handling of the first `|steps|` entries of the timeline `tl` of `date`, in order. */
  ghost predicate RunSoFar(url: string, date: Date, tl: seq<Timed>, start: int,
                           steps: seq<Step>, states: seq<map<string, string>>, end: int, env: DayEnv)
  {
    Followed(url, date, tl, steps, states, env) && Clocked(start, steps, end)
  }

  /** The whole timeline `tl` handled. */
  ghost predicate TimelineRun(url: string, date: Date, tl: seq<Timed>, start: int,
                              steps: seq<Step>, states: seq<map<string, string>>, end: int, env: DayEnv)
  {
    RunSoFar(url, date, tl, start, steps, states, end, env) && |steps| == |tl|
  }

  lemma RunSoFarExtend(url: string, date: Date, tl: seq<Timed>, start: int,
                       steps: seq<Step>, states: seq<map<string, string>>, now: int, env: DayEnv,
                       step: Step, after: map<string, string>, later: int)
    requires RunSoFar(url, date, tl, start, steps, states, now, env) && |steps| < |tl|
    requires StepFollows(url, states[|steps|], date, tl[|steps|], step)
    requires after == Effect(states[|steps|], step, env, |steps|)
    requires step.readAt == now <= step.dispatchedAt <= later
    ensures RunSoFar(url, date, tl, start, steps + [step], states + [after], later, env)
  {
    var n := |steps|;
    var steps', states' := steps + [step], states + [after];
    assert steps'[..n] == steps;
    assert states'[..n + 1] == states;
    assert steps'[n] == step && states'[n] == states[n] && states'[n + 1] == after;
  }

  /** Every step followed its timeline entry from the `sent` it met and changed `sent` as its call does. */
  lemma {:induction false} FollowedAt(url: string, date: Date, tl: seq<Timed>,
                                      steps: seq<Step>, states: seq<map<string, string>>, env: DayEnv, i: nat)
    requires Followed(url, date, tl, steps, states, env)
    requires i < |steps|
    ensures StepFollows(url, states[i], date, tl[i], steps[i])
    ensures states[i + 1] == Effect(states[i], steps[i], env, i)
    decreases |steps|
  {
    var n := |steps| - 1;
    if i < n {
      FollowedAt(url, date, tl, steps[..n], states[..n + 1], env, i);
      assert steps[..n][i] == steps[i];
      assert states[..n + 1][i] == states[i] && states[..n + 1][i + 1] == states[i + 1];
    }
  }

  /** Every step runs within the span of the clock, reading it before it is dispatched. */
  lemma {:induction false} ClockedAt(start: int, steps: seq<Step>, end: int, i: nat)
    requires Clocked(start, steps, end)
    requires i < |steps|
    ensures start <= steps[i].readAt <= steps[i].dispatchedAt <= end
    decreases |steps|
  {
    var n := |steps| - 1;
    ClockedStart(start, steps[..n], steps[n].readAt);
    if i < n {
      ClockedAt(start, steps[..n], steps[n].readAt, i);
      assert steps[..n][i] == steps[i];
    }
  }

  /** A run never ends before it starts. */
  lemma ClockedStart(start: int, steps: seq<Step>, end: int)
    requires Clocked(start, steps, end)
    ensures start <= end
  {
  }

  /** Steps run one after the other: each is dispatched before the next one reads the clock. */
  lemma {:induction false} ClockedOrdered(start: int, steps: seq<Step>, end: int, i: nat)
    requires Clocked(start, steps, end)
    requires i + 1 < |steps|
    ensures steps[i].dispatchedAt <= steps[i + 1].readAt
    decreases |steps|
  {
    var n := |steps| - 1;
    if i + 1 < n {
      ClockedOrdered(start, steps[..n], steps[n].readAt, i);
      assert steps[..n][i] == steps[i] && steps[..n][i + 1] == steps[i + 1];
    } else {
      assert steps[..n][i] == steps[i];
    }
  }

  /** A run of `main_today` started at clock `start`: the timeline of the start's date, handled. */
  ghost predicate DayRun(url: string, schedule: Schedule, start: int,
                         steps: seq<Step>, states: seq<map<string, string>>, end: int, env: DayEnv)
    requires Valid(schedule)
  {
    TimelineRun(url, DateOf(start), DayTimeline(schedule, DateOf(start)), start, steps, states, end, env)
  }

  /**
   * Step `i` of a day's run handled entry `i` of the day's timeline at that entry's
   * instant on the start's date: a skipped step called no manager method, any other
   * called exactly the one of its phase, a step that waited was dispatched no earlier
   * than its instant, and every step ran between the start and the end of the run.
   */
  lemma DayStepAt(url: string, schedule: Schedule, start: int,
                  steps: seq<Step>, states: seq<map<string, string>>, end: int, env: DayEnv, i: nat)
    requires Valid(schedule)
    requires DayRun(url, schedule, start, steps, states, end, env)
    requires i < |steps|
    ensures |steps| == |DayTimeline(schedule, DateOf(start))|
    ensures steps[i].entry == DayTimeline(schedule, DateOf(start))[i]
    ensures steps[i].instant == Instant(DateOf(start), steps[i].entry.time)
    ensures steps[i].decision == Classify(steps[i].instant, steps[i].readAt)
    ensures steps[i].call.None? <==> steps[i].decision == Skip
    ensures steps[i].call.Some? ==> steps[i].call.value == CallFor(steps[i].entry)
    ensures steps[i].decision == Wait ==> steps[i].dispatchedAt >= steps[i].instant
    ensures start <= steps[i].readAt <= steps[i].dispatchedAt <= end
    ensures states[i + 1] == Effect(states[i], steps[i], env, i)
  {
    var date := DateOf(start);
    FollowedAt(url, date, DayTimeline(schedule, date), steps, states, env, i);
    ClockedAt(start, steps, end, i);
  }

  /**
   * One iteration of `main_today`'s loop, for entry `i` of the timeline of `today`,
   * with the clock at `now` when the iteration starts.
   */
  method HandleEvent(manager: WebhookManager, today: Date, e: Timed, i: nat, now: int, env: DayEnv)
    returns (step: Step, later: int)
    modifies manager
    ensures StepFollows(manager.webhookUrl, old(manager.sent), today, e, step)
    ensures manager.sent == Effect(old(manager.sent), step, env, i)
    ensures step.readAt == now <= step.dispatchedAt <= later
  {
    var instant := Instant(today, e.time);
    var diff := instant - now;
    if -diff > MissedThreshold {
      return Step(e, instant, now, Skip, now, None, None), now + env.busy(i);
    }
    var decision, at := Immediate, now;
    if diff > 0 {
      decision, at := Wait, instant + env.overshoot(i);
    }
    var request: Option<Request>;
    match e.event {
      case Upcoming =>
        var req := manager.SendUpcoming(e.cls, env.post(i));
        request := Some(req);
      case Starting =>
        var _, req := manager.SetStarting(e.cls);
        request := req;
      case Ending =>
        var _, req := manager.Delete(e.cls, env.deletion(i));
        request := req;
    }
    step := Step(e, instant, now, decision, at, Some(CallFor(e)), request);
    later := at + env.busy(i);
  }

  /** The `for` loop of `main_today` over the timeline `events` of `today`. */
  method HandleAll(manager: WebhookManager, today: Date, events: seq<Timed>, start: int, env: DayEnv)
    returns (steps: seq<Step>, states: seq<map<string, string>>, now: int)
    modifies manager
    ensures TimelineRun(manager.webhookUrl, today, events, start, steps, states, now, env)
    ensures states[0] == old(manager.sent) && manager.sent == states[|steps|]
  {
    now := start;
    steps, states := [], [manager.sent];
    for i := 0 to |events|
      invariant |steps| == i && |states| == i + 1
      invariant states[0] == old(manager.sent) && manager.sent == states[i]
      invariant RunSoFar(manager.webhookUrl, today, events, start, steps, states, now, env)
    {
      var step, later := HandleEvent(manager, today, events[i], i, now, env);
      RunSoFarExtend(manager.webhookUrl, today, events, start, steps, states, now, env, step, manager.sent, later);
      steps, states, now := steps + [step], states + [manager.sent], later;
    }
  }

  /**
   * `main_today`, started at clock `start`: builds the timeline of the start's date
   * and handles its entries strictly in order. A skipped entry calls no manager
   * method; any other calls exactly the one of its phase, after sleeping until its
   * instant when that lies ahead.
   */
  method MainToday(manager: WebhookManager, schedule: Schedule, start: int, env: DayEnv)
    returns (steps: seq<Step>, states: seq<map<string, string>>, now: int)
    requires Valid(schedule)
    modifies manager
    ensures DayRun(manager.webhookUrl, schedule, start, steps, states, now, env)
    ensures states[0] == old(manager.sent) && manager.sent == states[|steps|]
  {
    var today := DateOf(start);
    var events := Events(ClassesOnDate(schedule, today), UpcomingMinutes);
    steps, states, now := HandleAll(manager, today, events, start, env);
  }

  /** The record of one day of `main`. */
  datatype DayLog = DayLog(
    start: int,
    answers: seq<DeleteResponse>,
    purge: seq<Request>,
    order: seq<string>,
    steps: seq<Step>,
    states: seq<map<string, string>>,
    end: int)

  /**
   * What the day's `delete_all` did to the records `prev`, answered by `answers`:
   * request `k` of `purge` deletes the message of course `order[k]`, a distinct
   * recorded course each time; every delete but the last got 204; and either every
   * record was deleted or the last delete did not get 204.
   */
  ghost predicate PurgeOf(url: string, prev: map<string, string>, answers: seq<DeleteResponse>,
                          purge: seq<Request>, order: seq<string>) {
    && |purge| == |order| <= |prev|
    && (forall k :: 0 <= k < |order| ==> order[k] in prev && purge[k] == DeleteRequest(url, prev[order[k]]))
    && (forall i, j :: 0 <= i < j < |order| ==> order[i] != order[j])
    && (forall k :: 0 <= k < |order| - 1 ==> Answer(answers, k) == Status(204))
    && ((forall c :: c in prev ==> c in order) || (|order| > 0 && Answer(answers, |order| - 1) != Status(204)))
  }

  /** `two_tomorrow`: 02:00 on the day after the date of `now`. */
  function NextReset(now: int): (r: int)
    ensures r > now
    ensures DateOf(r).day == DateOf(now).day + 1
  {
    Instant(Date(DateOf(now).day + 1), HourMinute(2, 0))
  }

  /** What one day of `main` did, given what the manager held before its `delete_all`. */
  ghost predicate DayDone(url: string, schedule: Schedule, prev: map<string, string>, day: DayLog, env: DayEnv)
    requires Valid(schedule)
  {
    && |day.states| == |day.steps| + 1
    && PurgeOf(url, prev, day.answers, day.purge, day.order)
    && day.states[0] == map[]
    && DayRun(url, schedule, day.start, day.steps, day.states, day.end, env)
  }

  /** The manager's `sent` at the end of a day. */
  function Final(day: DayLog): (sent: map<string, string>)
    requires |day.states| == |day.steps| + 1
  {
    day.states[|day.steps|]
  }

  /**
   * One iteration of `main`'s loop from clock `now`: `delete_all`, answered by
   * `purge`, then `main_today`, then the sleep until 02:00 of the next day, which
   * returns `wake` late.
   */
  method RunDay(manager: WebhookManager, schedule: Schedule, now: int, env: DayEnv,
                purge: seq<DeleteResponse>, wake: nat)
    returns (day: DayLog, next: int)
    requires Valid(schedule)
    modifies manager
    ensures day.start == now && day.answers == purge
    ensures DayDone(manager.webhookUrl, schedule, old(manager.sent), day, env)
    ensures manager.sent == Final(day)
    ensures next == NextReset(day.end) + wake
    ensures DateOf(day.start).day < DateOf(next).day
  {
    ghost var prev := manager.sent;
    var _, requests, order := manager.DeleteAll(purge);
    assert PurgeOf(manager.webhookUrl, prev, purge, requests, order);
    var steps, states, end := MainToday(manager, schedule, now, env);
    day := DayLog(now, purge, requests, order, steps, states, end);
    next := NextReset(end) + wake;
    assert DateOf(now).day <= DateOf(end).day < DateOf(next).day;
  }

  /**
   * The days of `log`, in order: the first run from the manager's `before`, each
   * later one purging what its predecessor left and starting at the reset after it,
   * on a later date. Day `d` runs on the schedule `schedules(d)` read that day.
   */
  ghost predicate Days(url: string, schedules: nat -> Schedule, before: map<string, string>, log: seq<DayLog>,
                       envs: nat -> DayEnv, purges: nat -> seq<DeleteResponse>, wake: nat -> nat)
    decreases |log|
  {
    if log == [] then true
    else
      var n := |log| - 1;
      && Days(url, schedules, before, log[..n], envs, purges, wake)
      && |log[n].states| == |log[n].steps| + 1
      && log[n].answers == purges(n)
      && Valid(schedules(n))
      && if n == 0 then DayDone(url, schedules(0), before, log[0], envs(0))
         else
           && |log[n - 1].states| == |log[n - 1].steps| + 1
           && DayDone(url, schedules(n), Final(log[n - 1]), log[n], envs(n))
           && log[n].start == NextReset(log[n - 1].end) + wake(n - 1)
           && DateOf(log[n - 1].start).day < DateOf(log[n].start).day
  }

  lemma DaysExtend(url: string, schedules: nat -> Schedule, before: map<string, string>, log: seq<DayLog>,
                   envs: nat -> DayEnv, purges: nat -> seq<DeleteResponse>, wake: nat -> nat, day: DayLog)
    requires Valid(schedules(|log|))
    requires Days(url, schedules, before, log, envs, purges, wake)
    requires |day.states| == |day.steps| + 1 && day.answers == purges(|log|)
    requires log == [] ==> DayDone(url, schedules(0), before, day, envs(0))
    requires log != [] ==> |log[|log| - 1].states| == |log[|log| - 1].steps| + 1
    requires log != [] ==> DayDone(url, schedules(|log|), Final(log[|log| - 1]), day, envs(|log|))
    requires log != [] ==> day.start == NextReset(log[|log| - 1].end) + wake(|log| - 1)
    requires log != [] ==> DateOf(log[|log| - 1].start).day < DateOf(day.start).day
    ensures Days(url, schedules, before, log + [day], envs, purges, wake)
  {
    var log' := log + [day];
    assert log'[..|log|] == log;
    assert log'[|log|] == day;
    if log != [] {
      assert log'[|log| - 1] == log[|log| - 1];
    }
  }

  /**
   * The state of `main`'s loop after the days of `log`, started at clock `start`
   * with the manager holding `before`: the days so far are consistent, the manager
   * holds what the last day left, and the clock `now` is the wake-up after it.
   */
  ghost predicate LoopSoFar(url: string, schedules: nat -> Schedule, before: map<string, string>, start: int,
                            log: seq<DayLog>, now: int, sent: map<string, string>,
                            envs: nat -> DayEnv, purges: nat -> seq<DeleteResponse>, wake: nat -> nat)
  {
    && Days(url, schedules, before, log, envs, purges, wake)
    && (log == [] ==> now == start && sent == before)
    && (log != [] ==>
          var last := log[|log| - 1];
          && log[0].start == start
          && |last.states| == |last.steps| + 1
          && sent == Final(last)
          && now == NextReset(last.end) + wake(|log| - 1)
          && DateOf(last.start).day < DateOf(now).day)
  }

  /** One more day of `main`, run from where the loop stood, keeps the loop's state. */
  lemma LoopSoFarExtend(url: string, schedules: nat -> Schedule, before: map<string, string>, start: int,
                        log: seq<DayLog>, now: int, sent: map<string, string>,
                        envs: nat -> DayEnv, purges: nat -> seq<DeleteResponse>, wake: nat -> nat,
                        day: DayLog, next: int)
    requires Valid(schedules(|log|))
    requires LoopSoFar(url, schedules, before, start, log, now, sent, envs, purges, wake)
    requires day.start == now && day.answers == purges(|log|)
    requires DayDone(url, schedules(|log|), sent, day, envs(|log|))
    requires next == NextReset(day.end) + wake(|log|)
    requires DateOf(day.start).day < DateOf(next).day
    ensures LoopSoFar(url, schedules, before, start, log + [day], next, Final(day), envs, purges, wake)
  {
    var log' := log + [day];
    if log == [] {
      DaysExtend(url, schedules, before, log, envs, purges, wake, day);
      assert log' == [day];
    } else {
      DaysExtend(url, schedules, before, log, envs, purges, wake, day);
      assert log'[0] == log[0] && log'[|log'| - 1] == day;
    }
  }

  /**
   * The first `days` iterations of `main`'s endless loop, from clock `start`: each
   * day first drains the manager with `delete_all`, answered by `purges(d)`, so
   * that day's events start from an empty `sent`; then runs `main_today` on the
   * schedule `schedules(d)` read that day; then sleeps until 02:00 of the next day,
   * waking `wake(d)` late. Each day's purge deletes what the previous day left
   * recorded, and the days run on strictly increasing dates.
   */
  method Run(manager: WebhookManager, schedules: nat -> Schedule, start: int, days: nat,
             envs: nat -> DayEnv, purges: nat -> seq<DeleteResponse>, wake: nat -> nat)
    returns (log: seq<DayLog>)
    requires forall d: nat :: Valid(schedules(d))
    modifies manager
    ensures |log| == days
    ensures days > 0 ==> log[0].start == start
    ensures Days(manager.webhookUrl, schedules, old(manager.sent), log, envs, purges, wake)
    ensures days > 0 ==> manager.sent == Final(log[days - 1])
    ensures days == 0 ==> manager.sent == old(manager.sent)
  {
    var now := start;
    log := [];
    for d := 0 to days
      invariant |log| == d
      invariant LoopSoFar(manager.webhookUrl, schedules, old(manager.sent), start, log, now, manager.sent, envs, purges, wake)
    {
      ghost var prev := manager.sent;
      assert Valid(schedules(d));
      var day, next := RunDay(manager, schedules(d), now, envs(d), purges(d), wake(d));
      LoopSoFarExtend(manager.webhookUrl, schedules, old(manager.sent), start, log, now, prev, envs, purges, wake, day, next);
      log := log + [day];
      now := next;
    }
  }
}
