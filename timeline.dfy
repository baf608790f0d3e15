/**
 * The day's timeline (`events` in bot/src/main.rs): three events per class,
 * stable-sorted by time of day.
 */
module Timeline {
  import opened Chrono
  import opened Sched

  datatype Event = Upcoming | Starting | Ending

  /** One `(NaiveTime, Event, &Class)` entry of the timeline. */
  datatype Timed = Timed(time: TimeOfDay, event: Event, cls: Class)

  /** The three entries pushed for one class, in push order. */
  function PushedFor(c: Class, window: int): (r: seq<Timed>)
    ensures |r| == 3
    ensures r[0] == Timed(ShiftBack(c.startTime, window), Upcoming, c)
    ensures r[1] == Timed(c.startTime, Starting, c)
    ensures r[2] == Timed(c.endTime, Ending, c)
  {
    [Timed(ShiftBack(c.startTime, window), Upcoming, c), Timed(c.startTime, Starting, c), Timed(c.endTime, Ending, c)]
  }

  /** The list as the `for` loop leaves it, before the sort. */
  function Pushed(classes: seq<Class>, window: int): (tl: seq<Timed>)
  {
    if classes == [] then []
    else Pushed(classes[..|classes| - 1], window) + PushedFor(classes[|classes| - 1], window)
  }

  lemma {:induction false} PushedLength(classes: seq<Class>, window: int)
    ensures |Pushed(classes, window)| == 3 * |classes|
  {
    if classes != [] {
      PushedLength(classes[..|classes| - 1], window);
    }
  }

  /** Entry `3k + j` of the pushed list is entry `j` of class `k`'s three. */
  lemma {:induction false} PushedAt(classes: seq<Class>, window: int, k: nat, j: nat)
    requires k < |classes| && j < 3
    ensures |Pushed(classes, window)| == 3 * |classes|
    ensures Pushed(classes, window)[3 * k + j] == PushedFor(classes[k], window)[j]
  {
    PushedLength(classes, window);
    var n := |classes| - 1;
    PushedLength(classes[..n], window);
    if k < n {
      PushedAt(classes[..n], window, k, j);
    }
  }

  ghost predicate SortedByTime(s: seq<Timed>) {
    forall i, j :: 0 <= i < j < |s| ==> s[i].time <= s[j].time
  }

  /** The entries at time `t`, in the order they appear. */
  function WithTime(s: seq<Timed>, t: TimeOfDay): (r: seq<Timed>)
  {
    if s == [] then []
    else (if s[0].time == t then [s[0]] else []) + WithTime(s[1..], t)
  }

  /**
   * Inserts `x` into a sorted list in front of the first entry whose time is not
   * earlier than its own, so that it precedes the entries it ties with.
   */
  function Insert(r: seq<Timed>, x: Timed): (t: seq<Timed>)
  {
    if r == [] || x.time <= r[0].time then [x] + r else [r[0]] + Insert(r[1..], x)
  }

  /** Inserting adds `x` once and keeps everything else. */
  lemma {:induction false} InsertKeeps(r: seq<Timed>, x: Timed)
    ensures |Insert(r, x)| == |r| + 1
    ensures multiset(Insert(r, x)) == multiset(r) + multiset{x}
  {
    if r != [] && x.time > r[0].time {
      InsertKeeps(r[1..], x);
      assert r == [r[0]] + r[1..];
    }
  }

  lemma {:induction false} InsertSorted(r: seq<Timed>, x: Timed)
    requires SortedByTime(r)
    ensures SortedByTime(Insert(r, x))
  {
    if r != [] && x.time > r[0].time {
      var rest := Insert(r[1..], x);
      InsertSorted(r[1..], x);
      InsertKeeps(r[1..], x);
      forall i | 0 <= i < |rest|
        ensures rest[i].time >= r[0].time
      {
        assert rest[i] in multiset(rest);
        if rest[i] != x {
          assert rest[i] in r[1..];
        }
      }
      assert Insert(r, x) == [r[0]] + rest;
    }
  }

  /** Inserting puts `x` first among the entries at its own time and nowhere else. */
  lemma {:induction false} InsertWithTime(r: seq<Timed>, x: Timed, t: TimeOfDay)
    ensures WithTime(Insert(r, x), t) == (if x.time == t then [x] else []) + WithTime(r, t)
  {
    if r == [] || x.time <= r[0].time {
      assert ([x] + r)[1..] == r;
    } else {
      var rest := Insert(r[1..], x);
      var q := [r[0]] + rest;
      assert Insert(r, x) == q;
      assert q[0] == r[0] && q[1..] == rest;
      InsertWithTime(r[1..], x, t);
      if r[0].time == t {
        // x.time > r[0].time, so x is not at time t
        assert WithTime(q, t) == [r[0]] + WithTime(rest, t);
        assert WithTime(r, t) == [r[0]] + WithTime(r[1..], t);
      } else {
        assert WithTime(q, t) == WithTime(rest, t);
        assert WithTime(r, t) == WithTime(r[1..], t);
      }
    }
  }

  /**
   * `list.sort_by_key(|(t, _, _)| *t)`: the standard library's stable sort, as an
   * insertion sort that puts each entry in front of the later entries it ties with.
   */
  function SortByTime(s: seq<Timed>): (sorted: seq<Timed>)
  {
    if s == [] then [] else Insert(SortByTime(s[1..]), s[0])
  }

  /** The sort orders by time and keeps every entry as often as it occurs. */
  lemma {:induction false} SortByTimeSorts(s: seq<Timed>)
    ensures |SortByTime(s)| == |s|
    ensures SortedByTime(SortByTime(s))
    ensures multiset(SortByTime(s)) == multiset(s)
  {
    if s != [] {
      SortByTimeSorts(s[1..]);
      InsertSorted(SortByTime(s[1..]), s[0]);
      InsertKeeps(SortByTime(s[1..]), s[0]);
      assert s == [s[0]] + s[1..];
    }
  }

  /**
   * The sort is stable: the entries at any one time come out in the order they
   * went in.
   */
  lemma {:induction false} SortByTimeStable(s: seq<Timed>, t: TimeOfDay)
    ensures WithTime(SortByTime(s), t) == WithTime(s, t)
  {
    if s != [] {
      InsertWithTime(SortByTime(s[1..]), s[0], t);
      SortByTimeStable(s[1..], t);
    }
  }

  /** The sorted list holds the same entries as the input. */
  lemma SortByTimeMembers(s: seq<Timed>, e: Timed)
    ensures e in SortByTime(s) <==> e in s
  {
    SortByTimeSorts(s);
    assert e in SortByTime(s) <==> e in multiset(SortByTime(s));
  }

  /**
   * `events`: pushes each class's Upcoming, Starting and Ending entries, then sorts
   * them stably by time. Entries at equal times keep their push order: class order,
   * and Upcoming, Starting, Ending within one class.
   */
  method Events(classes: seq<Class>, window: int) returns (list: seq<Timed>)
    ensures list == SortByTime(Pushed(classes, window))
    ensures |list| == 3 * |classes|
    ensures SortedByTime(list)
    ensures multiset(list) == multiset(Pushed(classes, window))
  {
    var pushed: seq<Timed> := [];
    for i := 0 to |classes|
      invariant pushed == Pushed(classes[..i], window)
    {
      var c := classes[i];
      assert classes[..i + 1][..i] == classes[..i];
      pushed := pushed + [Timed(ShiftBack(c.startTime, window), Upcoming, c)];
      pushed := pushed + [Timed(c.startTime, Starting, c)];
      pushed := pushed + [Timed(c.endTime, Ending, c)];
    }
    assert classes[..|classes|] == classes;
    list := SortByTime(pushed);
    SortByTimeSorts(pushed);
    PushedLength(classes, window);
  }

  /** Every class contributes its Upcoming, Starting and Ending entries to the timeline. */
  lemma SortedContainsClass(classes: seq<Class>, window: int, k: nat)
    requires k < |classes|
    ensures Timed(ShiftBack(classes[k].startTime, window), Upcoming, classes[k]) in SortByTime(Pushed(classes, window))
    ensures Timed(classes[k].startTime, Starting, classes[k]) in SortByTime(Pushed(classes, window))
    ensures Timed(classes[k].endTime, Ending, classes[k]) in SortByTime(Pushed(classes, window))
  {
    var p := Pushed(classes, window);
    PushedAt(classes, window, k, 0);
    PushedAt(classes, window, k, 1);
    PushedAt(classes, window, k, 2);
    SortByTimeMembers(p, p[3 * k]);
    SortByTimeMembers(p, p[3 * k + 1]);
    SortByTimeMembers(p, p[3 * k + 2]);
  }

  /** Nothing enters the timeline but the three entries of some class. */
  lemma SortedOnlyFromClasses(classes: seq<Class>, window: int, e: Timed)
    requires e in SortByTime(Pushed(classes, window))
    ensures exists k, j :: 0 <= k < |classes| && 0 <= j < 3 && e == PushedFor(classes[k], window)[j]
  {
    var p := Pushed(classes, window);
    SortByTimeMembers(p, e);
    var i :| 0 <= i < |p| && p[i] == e;
    PushedLength(classes, window);
    PushedAt(classes, window, i / 3, i % 3);
  }

  /**
   * One class from 09:00 to 10:00 with a 15-minute window: the notice at 08:45, the
   * start, then the end.
   */
  lemma OneClassTimeline(c: Class)
    requires c.startTime == 540 && c.endTime == 600
    ensures SortByTime(Pushed([c], 15)) == [Timed(525, Upcoming, c), Timed(540, Starting, c), Timed(600, Ending, c)]
  {
    var u, s, e := Timed(525, Upcoming, c), Timed(540, Starting, c), Timed(600, Ending, c);
    assert [c][..0] == [];
    assert Pushed([c], 15) == [u, s, e];
    assert [u, s, e][1..] == [s, e] && [s, e][1..] == [e];
    assert SortByTime([e]) == [e];
    assert SortByTime([s, e]) == Insert([e], s) == [s, e];
    assert Insert([s, e], u) == [u, s, e];
  }

  /**
   * One class from 00:10 to 01:00 with a 15-minute window: the notice time wraps to
   * 23:55, so on the day's timeline the notice comes last, after the class has ended.
   */
  lemma AfterMidnightTimeline(c: Class)
    requires c.startTime == 10 && c.endTime == 60
    ensures SortByTime(Pushed([c], 15)) == [Timed(10, Starting, c), Timed(60, Ending, c), Timed(1435, Upcoming, c)]
  {
    var u, s, e := Timed(1435, Upcoming, c), Timed(10, Starting, c), Timed(60, Ending, c);
    assert [c][..0] == [];
    assert Pushed([c], 15) == [u, s, e];
    assert [u, s, e][1..] == [s, e] && [s, e][1..] == [e];
    assert SortByTime([e]) == [e];
    assert SortByTime([s, e]) == Insert([e], s) == [s, e];
    assert Insert([e], u) == [e, u];
    assert Insert([s, e], u) == [s, e, u];
  }
}
