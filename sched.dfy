/**
 * The weekly schedule the bot runs from (bot/src/sched.rs): the conversion of a
 * deserialised class record into a `Class`, and the seven-slot `Schedule` built
 * from a weekday-keyed map.
 */
module Sched {
  import opened Wrappers
  import opened Chrono

  /** A class as it appears in the schedule file, every field still a string. */
  datatype JsonClass = JsonClass(course: string, startTime: string, endTime: string, link: string)

  /**
   * A loaded class. The destructors `course`, `startTime`, `endTime` and `link` are
   * the accessors of the same names, which hand back the stored fields unchanged.
   */
  datatype Class = Class(course: string, startTime: TimeOfDay, endTime: TimeOfDay, link: Option<string>)

  const StartTimeError: string := "Error parsing startTime"
  const EndTimeError: string := "Error parsing endTime"

  /** `Some(link).filter(|s| !s.is_empty())`: an empty link means there is none. */
  function LinkFromJson(link: string): (r: Option<string>)
    ensures r.None? <==> link == ""
    ensures r.Some? ==> r.value == link
  {
    if link == "" then None else Some(link)
  }

  /**
   * `Class::try_from`: the start time is parsed first, then the end time; the first
   * failure decides the error. No order between the two times is demanded.
   */
  function TryFrom(j: JsonClass, parse: TimeParser): (r: Result<Class, string>)
    ensures parse(j.startTime).None? ==> r == Failure(StartTimeError)
    ensures parse(j.startTime).Some? && parse(j.endTime).None? ==> r == Failure(EndTimeError)
    ensures r.Failure? <==> parse(j.startTime).None? || parse(j.endTime).None?
    ensures r.Success? ==>
      && r.value.course == j.course
      && parse(j.startTime) == Some(r.value.startTime)
      && parse(j.endTime) == Some(r.value.endTime)
      && (r.value.link.None? <==> j.link == "")
      && (r.value.link.Some? ==> r.value.link.value == j.link)
  {
    match parse(j.startTime)
    case None => Failure(StartTimeError)
    case Some(start) =>
      match parse(j.endTime)
      case None => Failure(EndTimeError)
      case Some(end) => Success(Class(j.course, start, end, LinkFromJson(j.link)))
  }

  /** Any two well-formed times are accepted, even an end before the start. */
  lemma TryFromAcceptsAnyOrder(j: JsonClass, parse: TimeParser, start: TimeOfDay, end: TimeOfDay)
    requires parse(j.startTime) == Some(start) && parse(j.endTime) == Some(end)
    ensures TryFrom(j, parse) == Success(Class(j.course, start, end, LinkFromJson(j.link)))
  {
  }

  /** `Schedule { days: [Vec<Class>; 7] }`, slot `w` holding weekday `w`'s classes. */
  datatype Schedule = Schedule(days: seq<seq<Class>>)

  ghost predicate Valid(s: Schedule) {
    |s.days| == 7
  }

  /** `Schedule::classes_on_weekday`: slot `weekday as usize`. */
  function ClassesOnWeekday(s: Schedule, w: Weekday): (classes: seq<Class>)
    requires Valid(s)
  {
    s.days[w]
  }

  /** `Schedule::classes_on_date`: the classes of the date's weekday. */
  function ClassesOnDate(s: Schedule, d: Date): (r: seq<Class>)
    requires Valid(s)
    ensures r == s.days[WeekdayOf(d)]
  {
    ClassesOnWeekday(s, WeekdayOf(d))
  }

  /** The classes on a date depend on nothing but its weekday. */
  lemma ClassesOnDateByWeekday(s: Schedule, d1: Date, d2: Date)
    requires Valid(s)
    requires WeekdayOf(d1) == WeekdayOf(d2)
    ensures ClassesOnDate(s, d1) == ClassesOnDate(s, d2)
  {
  }

  /** In particular, the same date of consecutive weeks has the same classes. */
  lemma ClassesOnDateWeekly(s: Schedule, d: Date, weeks: int)
    requires Valid(s)
    ensures ClassesOnDate(s, Date(d.day + 7 * weeks)) == ClassesOnDate(s, d)
  {
    WeekdayPeriodic(d, weeks);
  }

  /**
   * `Schedule::from_map`: starts from seven empty slots and, for each entry of the
   * map (in whatever order the map yields them), stores the entry's classes in the
   * slot of its weekday.
   */
  method FromMap(hashmap: map<Weekday, seq<Class>>) returns (s: Schedule)
    ensures Valid(s)
    ensures forall w: Weekday :: ClassesOnWeekday(s, w) == if w in hashmap then hashmap[w] else []
  {
    var days := new seq<Class>[7](_ => []);
    var pending := hashmap.Keys;
    while pending != {}
      invariant pending <= hashmap.Keys
      invariant forall w :: 0 <= w < 7 ==>
        days[w] == if w in hashmap && w !in pending then hashmap[w] else []
      decreases pending
    {
      var w :| w in pending;
      days[w] := hashmap[w];
      pending := pending - {w};
    }
    s := Schedule(days[..]);
  }
}
