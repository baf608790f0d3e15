/**
 * The weekly timetable generator (build_weekly.js): every course's slot names a
 * list of template sessions; each session becomes an entry on its day, and each
 * weekday's entries are then sorted by start time.
 *
 * The two JSON inputs arrive already parsed: `courseSlots` lists the pairs of the
 * course-to-slot object in its enumeration order, and `template` maps each slot
 * name to its sessions. A thrown `TypeError` becomes a `Failure`.
 */
module BuildWeekly {
  import opened Wrappers

  /** The keys of the generated object, in order. */
  const Days: seq<string> := ["Monday", "Tuesday", "Wednesday", "Thursday", "Friday"]

  /** One session of a slot in the template. */
  datatype TemplateSession = TemplateSession(day: string, startTime: string, endTime: string)

  /** One generated entry; the link is always left empty. */
  datatype Entry = Entry(course: string, startTime: string, endTime: string, link: string)

  /**
   * Why the script throws: the slot of a course is not in the template (iterating
   * `undefined`), or a session's day is not one of `Days` (`push` on `undefined`).
   */
  datatype BuildError = NoSuchSlot(slot: string) | NoSuchDay(day: string)

  /** One `push`: the day it goes to and the entry pushed. */
  datatype Push = Push(day: string, entry: Entry)

  // ---------------------------------------------------------------- string order

  /** JavaScript's `<` on strings: lexicographic order of the characters. */
  predicate StrLess(a: string, b: string)
    decreases |a|
  {
    if a == [] then b != []
    else if b == [] then false
    else a[0] < b[0] || (a[0] == b[0] && StrLess(a[1..], b[1..]))
  }

  lemma {:induction false} StrLessIrreflexive(a: string)
    ensures !StrLess(a, a)
    decreases |a|
  {
    if a != [] {
      StrLessIrreflexive(a[1..]);
    }
  }

  lemma {:induction false} StrLessTransitive(a: string, b: string, c: string)
    requires StrLess(a, b) && StrLess(b, c)
    ensures StrLess(a, c)
    decreases |a|
  {
    if a != [] && a[0] == b[0] && b[0] == c[0] {
      StrLessTransitive(a[1..], b[1..], c[1..]);
    }
  }

  /** Distinct strings are ordered one way or the other. */
  lemma {:induction false} StrLessTotal(a: string, b: string)
    requires a != b
    ensures StrLess(a, b) || StrLess(b, a)
    decreases |a|
  {
    if a != [] && b != [] && a[0] == b[0] {
      assert a == [a[0]] + a[1..] && b == [b[0]] + b[1..];
      StrLessTotal(a[1..], b[1..]);
    }
  }

  /** `a` starts no later than `b`. */
  predicate NotAfter(a: Entry, b: Entry) {
    !StrLess(b.startTime, a.startTime)
  }

  lemma NotAfterTransitive(a: Entry, b: Entry, c: Entry)
    requires NotAfter(a, b) && NotAfter(b, c)
    ensures NotAfter(a, c)
  {
    if StrLess(c.startTime, a.startTime) {
      if a.startTime == b.startTime {
      } else if b.startTime == c.startTime {
      } else {
        StrLessTotal(a.startTime, b.startTime);
        StrLessTotal(b.startTime, c.startTime);
        StrLessTransitive(a.startTime, b.startTime, c.startTime);
        StrLessTransitive(a.startTime, c.startTime, a.startTime);
        StrLessIrreflexive(a.startTime);
      }
    }
  }

  // ---------------------------------------------------------------- the per-day sort

  ghost predicate SortedByStart(s: seq<Entry>) {
    forall i, j :: 0 <= i < j < |s| ==> NotAfter(s[i], s[j])
  }

  /** Inserts `x` in front of the first entry that does not start before it. */
  function InsertByStart(r: seq<Entry>, x: Entry): (t: seq<Entry>)
  {
    if r == [] || !StrLess(r[0].startTime, x.startTime) then [x] + r
    else [r[0]] + InsertByStart(r[1..], x)
  }

  lemma {:induction false} InsertByStartKeeps(r: seq<Entry>, x: Entry)
    ensures |InsertByStart(r, x)| == |r| + 1
    ensures multiset(InsertByStart(r, x)) == multiset(r) + multiset{x}
  {
    if r != [] && StrLess(r[0].startTime, x.startTime) {
      InsertByStartKeeps(r[1..], x);
      assert r == [r[0]] + r[1..];
    }
  }

  lemma {:induction false} InsertByStartSorted(r: seq<Entry>, x: Entry)
    requires SortedByStart(r)
    ensures SortedByStart(InsertByStart(r, x))
  {
    if r == [] {
    } else if !StrLess(r[0].startTime, x.startTime) {
      var q := [x] + r;
      forall i, j | 0 <= i < j < |q|
        ensures NotAfter(q[i], q[j])
      {
        if i == 0 && j > 1 {
          NotAfterTransitive(x, r[0], r[j - 1]);
        }
      }
    } else {
      var rest := InsertByStart(r[1..], x);
      InsertByStartSorted(r[1..], x);
      InsertByStartKeeps(r[1..], x);
      forall i | 0 <= i < |rest|
        ensures NotAfter(r[0], rest[i])
      {
        assert rest[i] in multiset(rest);
        if rest[i] == x {
          StrLessIrreflexive(r[0].startTime);
          if StrLess(x.startTime, r[0].startTime) {
            StrLessTransitive(x.startTime, r[0].startTime, x.startTime);
            StrLessIrreflexive(x.startTime);
          }
        } else {
          assert rest[i] in r[1..];
        }
      }
      assert InsertByStart(r, x) == [r[0]] + rest;
    }
  }

  /**
   * `weekly[day].sort((a, b) => a.startTime < b.startTime ? -1 : 1)`, as an
   * insertion sort. The comparator never answers 0, so the engine may leave entries
   * with equal start times in any order; only the order of start times is claimed.
   */
  function SortByStart(s: seq<Entry>): (sorted: seq<Entry>)
  {
    if s == [] then [] else InsertByStart(SortByStart(s[1..]), s[0])
  }

  /** The sort orders by start time and keeps every entry as often as it occurs. */
  lemma {:induction false} SortByStartSorts(s: seq<Entry>)
    ensures SortedByStart(SortByStart(s))
    ensures multiset(SortByStart(s)) == multiset(s)
  {
    if s != [] {
      SortByStartSorts(s[1..]);
      InsertByStartSorted(SortByStart(s[1..]), s[0]);
      InsertByStartKeeps(SortByStart(s[1..]), s[0]);
      assert s == [s[0]] + s[1..];
    }
  }

  /** Two entries with the same start time keep the order they were pushed in. */
  lemma SortByStartKeepsTies(a: Entry, b: Entry)
    requires a.startTime == b.startTime
    ensures SortByStart([a, b]) == [a, b]
  {
    assert [a, b][1..] == [b] && [b][1..] == [];
    assert SortByStart([b]) == [b];
    StrLessIrreflexive(a.startTime);
  }

  // ---------------------------------------------------------------- the pushes

  /** The pushes of one course's sessions, in order. */
  function SessionPushes(course: string, sessions: seq<TemplateSession>): (ps: seq<Push>)
  {
    if sessions == [] then []
    else
      var s := sessions[|sessions| - 1];
      SessionPushes(course, sessions[..|sessions| - 1]) + [Push(s.day, Entry(course, s.startTime, s.endTime, ""))]
  }

  /** All pushes of the nested loops, course by course. */
  function CoursePushes(courseSlots: seq<(string, string)>, template: map<string, seq<TemplateSession>>): (ps: seq<Push>)
  {
    if courseSlots == [] then []
    else
      var n := |courseSlots| - 1;
      var (course, slot) := courseSlots[n];
      CoursePushes(courseSlots[..n], template) + (if slot in template then SessionPushes(course, template[slot]) else [])
  }

  /** The entries pushed to `day`, in push order. */
  function OnDay(pushes: seq<Push>, day: string): (entries: seq<Entry>)
  {
    if pushes == [] then []
    else
      var p := pushes[|pushes| - 1];
      OnDay(pushes[..|pushes| - 1], day) + (if p.day == day then [p.entry] else [])
  }

  lemma {:induction false} OnDayAppend(a: seq<Push>, b: seq<Push>, day: string)
    ensures OnDay(a + b, day) == OnDay(a, day) + OnDay(b, day)
    decreases |b|
  {
    if b == [] {
      assert a + b == a;
    } else {
      var n := |b| - 1;
      assert (a + b)[..|a + b| - 1] == a + b[..n];
      OnDayAppend(a, b[..n], day);
    }
  }

  /** The generated object after `pushes`: each of `Days` with the entries pushed to it. */
  function WeekOf(pushes: seq<Push>): (w: map<string, seq<Entry>>)
    ensures forall d :: d in w <==> d in Days
  {
    map d | d in Days :: OnDay(pushes, d)
  }

  /** One more push extends the list of its own day and leaves the other days alone. */
  lemma WeekOfPush(pushes: seq<Push>, p: Push)
    requires p.day in Days
    ensures WeekOf(pushes + [p]) == WeekOf(pushes)[p.day := WeekOf(pushes)[p.day] + [p.entry]]
  {
    var all := pushes + [p];
    assert all[..|all| - 1] == pushes;
    var w := WeekOf(pushes)[p.day := WeekOf(pushes)[p.day] + [p.entry]];
    forall d | d in Days
      ensures WeekOf(all)[d] == w[d]
    {
      assert OnDay(all, d) == OnDay(pushes, d) + (if p.day == d then [p.entry] else []);
    }
  }

  /** Whether every one of `sessions` falls on one of `Days`, checked from the end. */
  ghost predicate OnWeekdays(sessions: seq<TemplateSession>) {
    sessions == [] || (OnWeekdays(sessions[..|sessions| - 1]) && sessions[|sessions| - 1].day in Days)
  }

  lemma {:induction false} OnWeekdaysAll(sessions: seq<TemplateSession>)
    ensures OnWeekdays(sessions) <==> forall k :: 0 <= k < |sessions| ==> sessions[k].day in Days
  {
    if sessions != [] {
      OnWeekdaysAll(sessions[..|sessions| - 1]);
    }
  }

  /** The loop over `sessions` may go one step past `j` when session `j` is on a weekday. */
  lemma PushStep(before: seq<Push>, course: string, sessions: seq<TemplateSession>, j: nat)
    requires j < |sessions| && sessions[j].day in Days && OnWeekdays(sessions[..j])
    ensures OnWeekdays(sessions[..j + 1])
    ensures var p := Push(sessions[j].day, Entry(course, sessions[j].startTime, sessions[j].endTime, ""));
      var w := WeekOf(before + SessionPushes(course, sessions[..j]));
      WeekOf(before + SessionPushes(course, sessions[..j + 1])) == w[p.day := w[p.day] + [p.entry]]
  {
    var p := Push(sessions[j].day, Entry(course, sessions[j].startTime, sessions[j].endTime, ""));
    assert sessions[..j + 1][..j] == sessions[..j];
    assert before + SessionPushes(course, sessions[..j + 1]) == before + SessionPushes(course, sessions[..j]) + [p];
    WeekOfPush(before + SessionPushes(course, sessions[..j]), p);
  }

  /** Session `j` is the first off the weekdays, so its day is the one reported. */
  lemma PushStop(sessions: seq<TemplateSession>, j: nat)
    requires j < |sessions| && sessions[j].day !in Days && OnWeekdays(sessions[..j])
    ensures exists s :: s in sessions && s.day !in Days
    ensures FirstBadDay(sessions) == sessions[j].day
  {
    OnWeekdaysAll(sessions[..j]);
    assert forall k :: 0 <= k < j ==> sessions[..j][k] == sessions[k];
    FirstBadDayAt(sessions, j);
  }

  lemma PushDone(sessions: seq<TemplateSession>)
    requires OnWeekdays(sessions)
    ensures !exists s :: s in sessions && s.day !in Days
  {
    OnWeekdaysAll(sessions);
  }

  /** Whether a course's slot exists and each of its sessions falls on a weekday. */
  ghost predicate CourseOk(cs: (string, string), template: map<string, seq<TemplateSession>>) {
    cs.1 in template && forall s :: s in template[cs.1] ==> s.day in Days
  }

  /** The day of the first session not on a weekday. */
  function FirstBadDay(sessions: seq<TemplateSession>): (d: string)
    requires exists s :: s in sessions && s.day !in Days
    ensures d !in Days
  {
    if sessions[0].day !in Days then sessions[0].day
    else
      assert exists s :: s in sessions[1..] && s.day !in Days by {
        var s :| s in sessions && s.day !in Days;
        assert s != sessions[0];
      }
      FirstBadDay(sessions[1..])
  }

  lemma {:induction false} FirstBadDayAt(sessions: seq<TemplateSession>, j: nat)
    requires j < |sessions| && sessions[j].day !in Days
    requires forall k :: 0 <= k < j ==> sessions[k].day in Days
    ensures FirstBadDay(sessions) == sessions[j].day
  {
    if j > 0 {
      assert sessions[1..][j - 1] == sessions[j];
      FirstBadDayAt(sessions[1..], j - 1);
    }
  }

  /** The error a course that is not `CourseOk` throws. */
  function CourseError(cs: (string, string), template: map<string, seq<TemplateSession>>): (e: BuildError)
    requires !CourseOk(cs, template)
    ensures e.NoSuchSlot? <==> cs.1 !in template
    ensures e.NoSuchDay? ==> e.day !in Days
  {
    if cs.1 !in template then NoSuchSlot(cs.1) else NoSuchDay(FirstBadDay(template[cs.1]))
  }

  // ---------------------------------------------------------------- main

  /** The first loop of `main`: an empty list for each of `Days`. */
  method EmptyWeek() returns (weekly: map<string, seq<Entry>>)
    ensures weekly == WeekOf([])
  {
    weekly := map[];
    for i := 0 to |Days|
      invariant weekly == map d | d in Days[..i] :: []
    {
      assert Days[..i + 1] == Days[..i] + [Days[i]];
      weekly := weekly[Days[i] := []];
    }
    assert Days[..|Days|] == Days;
  }

  /**
   * The inner loop for one course: pushes an entry for each of `sessions` onto its
   * day, failing at the first session whose day has no list.
   */
  method PushSessions(weekly: map<string, seq<Entry>>, course: string, sessions: seq<TemplateSession>,
                      ghost before: seq<Push>)
    returns (r: Result<map<string, seq<Entry>>, BuildError>)
    requires weekly == WeekOf(before)
    ensures r.Failure? <==> exists s :: s in sessions && s.day !in Days
    ensures r.Failure? ==> r.error == NoSuchDay(FirstBadDay(sessions))
    ensures r.Success? ==> r.value == WeekOf(before + SessionPushes(course, sessions))
  {
    var week := weekly;
    assert before + SessionPushes(course, sessions[..0]) == before;
    for j := 0 to |sessions|
      invariant OnWeekdays(sessions[..j])
      invariant week == WeekOf(before + SessionPushes(course, sessions[..j]))
    {
      var session := sessions[j];
      if session.day !in week {
        PushStop(sessions, j);
        return Failure(NoSuchDay(session.day));
      }
      var entry := Entry(course, session.startTime, session.endTime, "");
      PushStep(before, course, sessions, j);
      week := week[session.day := week[session.day] + [entry]];
    }
    assert sessions[..|sessions|] == sessions;
    PushDone(sessions);
    r := Success(week);
  }

  /** The nested loops of `main`: every course's sessions, course by course. */
  method Group(courseSlots: seq<(string, string)>, template: map<string, seq<TemplateSession>>)
    returns (r: Result<map<string, seq<Entry>>, BuildError>)
    ensures r.Failure? <==> exists k :: 0 <= k < |courseSlots| && !CourseOk(courseSlots[k], template)
    ensures r.Failure? ==> exists k :: (0 <= k < |courseSlots| && !CourseOk(courseSlots[k], template)
      && (forall k' :: 0 <= k' < k ==> CourseOk(courseSlots[k'], template))
      && r.error == CourseError(courseSlots[k], template))
    ensures r.Success? ==> r.value == WeekOf(CoursePushes(courseSlots, template))
  {
    var weekly := EmptyWeek();
    for i := 0 to |courseSlots|
      invariant forall k :: 0 <= k < i ==> CourseOk(courseSlots[k], template)
      invariant weekly == WeekOf(CoursePushes(courseSlots[..i], template))
    {
      var (course, slot) := courseSlots[i];
      if slot !in template {
        return Failure(NoSuchSlot(slot));
      }
      assert courseSlots[..i + 1][..i] == courseSlots[..i];
      var pushed := PushSessions(weekly, course, template[slot], CoursePushes(courseSlots[..i], template));
      if pushed.Failure? {
        return pushed;
      }
      weekly := pushed.value;
    }
    assert courseSlots[..|courseSlots|] == courseSlots;
    r := Success(weekly);
  }

  /** The last loop of `main`: sorts each day's list by start time. */
  method SortDays(weekly: map<string, seq<Entry>>) returns (sorted: map<string, seq<Entry>>)
    requires forall d :: d in weekly <==> d in Days
    ensures forall d :: d in sorted <==> d in Days
    ensures forall d :: d in Days ==> sorted[d] == SortByStart(weekly[d])
  {
    sorted := weekly;
    for i := 0 to |Days|
      invariant forall d :: d in sorted <==> d in Days
      invariant forall k :: 0 <= k < i ==> sorted[Days[k]] == SortByStart(weekly[Days[k]])
      invariant forall k :: i <= k < |Days| ==> sorted[Days[k]] == weekly[Days[k]]
    {
      sorted := sorted[Days[i] := SortByStart(sorted[Days[i]])];
    }
  }

  /**
   * `main` without its output. It fails with the first course, in order, whose slot
   * is missing or that has a session on a day other than Monday to Friday;
   * otherwise the result has exactly the keys Monday to Friday and each day holds,
   * sorted by start time, the entries pushed to it.
   */
  method Build(courseSlots: seq<(string, string)>, template: map<string, seq<TemplateSession>>)
    returns (r: Result<map<string, seq<Entry>>, BuildError>)
    ensures r.Failure? <==> exists k :: 0 <= k < |courseSlots| && !CourseOk(courseSlots[k], template)
    ensures r.Failure? ==> exists k :: (0 <= k < |courseSlots| && !CourseOk(courseSlots[k], template)
      && (forall k' :: 0 <= k' < k ==> CourseOk(courseSlots[k'], template))
      && r.error == CourseError(courseSlots[k], template))
    ensures r.Success? ==> forall d :: d in r.value <==> d in Days
    ensures r.Success? ==> forall d :: d in Days ==>
      && r.value[d] == SortByStart(OnDay(CoursePushes(courseSlots, template), d))
      && SortedByStart(r.value[d])
      && multiset(r.value[d]) == multiset(OnDay(CoursePushes(courseSlots, template), d))
  {
    var grouped := Group(courseSlots, template);
    if grouped.Failure? {
      return grouped;
    }
    var weekly := SortDays(grouped.value);
    forall d | d in Days
      ensures SortedByStart(weekly[d])
      ensures multiset(weekly[d]) == multiset(OnDay(CoursePushes(courseSlots, template), d))
    {
      SortByStartSorts(grouped.value[d]);
    }
    r := Success(weekly);
  }

  // ---------------------------------------------------------------- counts

  /** The number of sessions the template gives the listed courses. */
  function TotalSessions(courseSlots: seq<(string, string)>, template: map<string, seq<TemplateSession>>): (n: nat)
  {
    if courseSlots == [] then 0
    else
      var n := |courseSlots| - 1;
      var slot := courseSlots[n].1;
      TotalSessions(courseSlots[..n], template) + (if slot in template then |template[slot]| else 0)
  }

  /** The number of entries on the days of `days`. */
  function CountOn(pushes: seq<Push>, days: seq<string>): (n: nat)
  {
    if days == [] then 0 else |OnDay(pushes, days[0])| + CountOn(pushes, days[1..])
  }

  lemma {:induction false} SessionPushesLength(course: string, sessions: seq<TemplateSession>)
    ensures |SessionPushes(course, sessions)| == |sessions|
  {
    if sessions != [] {
      SessionPushesLength(course, sessions[..|sessions| - 1]);
    }
  }

  lemma {:induction false} CoursePushesLength(courseSlots: seq<(string, string)>, template: map<string, seq<TemplateSession>>)
    ensures |CoursePushes(courseSlots, template)| == TotalSessions(courseSlots, template)
  {
    if courseSlots != [] {
      var n := |courseSlots| - 1;
      CoursePushesLength(courseSlots[..n], template);
      if courseSlots[n].1 in template {
        SessionPushesLength(courseSlots[n].0, template[courseSlots[n].1]);
      }
    }
  }

  /** One more push adds one entry to its own day among `days`, and none elsewhere. */
  lemma {:induction false} CountOnPush(pushes: seq<Push>, p: Push, days: seq<string>)
    requires forall i, j :: 0 <= i < j < |days| ==> days[i] != days[j]
    ensures CountOn(pushes + [p], days) == CountOn(pushes, days) + (if p.day in days then 1 else 0)
  {
    if days != [] {
      assert (pushes + [p])[..|pushes|] == pushes;
      CountOnPush(pushes, p, days[1..]);
      assert p.day in days <==> p.day == days[0] || p.day in days[1..];
    }
  }

  /** When every push goes to one of `days`, the days hold all the pushes between them. */
  lemma {:induction false} CountOnAll(pushes: seq<Push>, days: seq<string>)
    requires forall i, j :: 0 <= i < j < |days| ==> days[i] != days[j]
    requires forall k :: 0 <= k < |pushes| ==> pushes[k].day in days
    ensures CountOn(pushes, days) == |pushes|
  {
    if pushes == [] {
      CountOnEmpty(days);
    } else {
      var n := |pushes| - 1;
      assert pushes == pushes[..n] + [pushes[n]];
      CountOnAll(pushes[..n], days);
      CountOnPush(pushes[..n], pushes[n], days);
    }
  }

  lemma {:induction false} CountOnEmpty(days: seq<string>)
    ensures CountOn([], days) == 0
  {
    if days != [] {
      CountOnEmpty(days[1..]);
    }
  }

  /** Every push of a course whose sessions all fall on weekdays goes to a weekday. */
  lemma {:induction false} SessionPushesOnDays(course: string, sessions: seq<TemplateSession>)
    requires forall s :: s in sessions ==> s.day in Days
    ensures forall k :: 0 <= k < |SessionPushes(course, sessions)| ==> SessionPushes(course, sessions)[k].day in Days
  {
    if sessions != [] {
      var n := |sessions| - 1;
      assert forall s :: s in sessions[..n] ==> s in sessions;
      SessionPushesOnDays(course, sessions[..n]);
      assert sessions[n] in sessions;
    }
  }

  lemma {:induction false} CoursePushesOnDays(courseSlots: seq<(string, string)>, template: map<string, seq<TemplateSession>>)
    requires forall k :: 0 <= k < |courseSlots| ==> CourseOk(courseSlots[k], template)
    ensures forall k :: 0 <= k < |CoursePushes(courseSlots, template)| ==> CoursePushes(courseSlots, template)[k].day in Days
  {
    if courseSlots != [] {
      var n := |courseSlots| - 1;
      assert CourseOk(courseSlots[n], template);
      CoursePushesOnDays(courseSlots[..n], template);
      SessionPushesOnDays(courseSlots[n].0, template[courseSlots[n].1]);
    }
  }

  /**
   * When nothing throws, Monday to Friday together hold one entry per session of
   * every course's slot.
   */
  lemma EntriesCount(courseSlots: seq<(string, string)>, template: map<string, seq<TemplateSession>>)
    requires forall k :: 0 <= k < |courseSlots| ==> CourseOk(courseSlots[k], template)
    ensures CountOn(CoursePushes(courseSlots, template), Days) == TotalSessions(courseSlots, template)
  {
    CoursePushesOnDays(courseSlots, template);
    CoursePushesLength(courseSlots, template);
    CountOnAll(CoursePushes(courseSlots, template), Days);
  }
}
