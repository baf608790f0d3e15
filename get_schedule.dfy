/**
 * The older, flat schedule loader (bot/src/get_schedule.rs): a list of days, each
 * with its classes, becomes one list of sessions, each tagged with the weekday of
 * the day it came from. `get_schedule.rs` declares its own `JsonClass` with the
 * same four string fields as `sched.rs`; the model uses the one of `Sched`.
 */
module GetSchedule {
  import opened Wrappers
  import opened Chrono
  import opened Sched

  /** One day of the schedule file and all the classes on it. */
  datatype Day = Day(weekday: Weekday, classes: seq<JsonClass>)

  datatype Session = Session(
    weekday: Weekday,
    course: string,
    startTime: TimeOfDay,
    endTime: TimeOfDay,
    link: Option<string>)

  /**
   * `Session::from_json_and_day`. Both times are parsed with `unwrap`, so a malformed
   * time aborts the process: `None` stands for that abort.
   */
  function FromJsonAndDay(jc: JsonClass, weekday: Weekday, parse: TimeParser): (r: Option<Session>)
    ensures r.Some? <==> parse(jc.startTime).Some? && parse(jc.endTime).Some?
    ensures r.Some? ==>
      && r.value.weekday == weekday
      && r.value.course == jc.course
      && parse(jc.startTime) == Some(r.value.startTime)
      && parse(jc.endTime) == Some(r.value.endTime)
      && (r.value.link.None? <==> jc.link == "")
      && (r.value.link.Some? ==> r.value.link.value == jc.link)
  {
    match (parse(jc.startTime), parse(jc.endTime))
    case (Some(start), Some(end)) => Some(Session(weekday, jc.course, start, end, LinkFromJson(jc.link)))
    case _ => None
  }

  /** The inner `map` of the `flat_map`: one day's classes, in order, as sessions. */
  function SessionsOfDay(classes: seq<JsonClass>, weekday: Weekday, parse: TimeParser): (r: Option<seq<Session>>)
  {
    if classes == [] then Some([])
    else
      match (FromJsonAndDay(classes[0], weekday, parse), SessionsOfDay(classes[1..], weekday, parse))
      case (Some(s), Some(rest)) => Some([s] + rest)
      case _ => None
  }

  /** `get_schedule` after deserialisation: the `flat_map` over the days, collected. */
  function Flatten(days: seq<Day>, parse: TimeParser): (r: Option<seq<Session>>)
  {
    if days == [] then Some([])
    else
      match (SessionsOfDay(days[0].classes, days[0].weekday, parse), Flatten(days[1..], parse))
      case (Some(first), Some(rest)) => Some(first + rest)
      case _ => None
  }

  /** The number of classes over all days, repeated weekdays included. */
  function TotalClasses(days: seq<Day>): (n: nat)
  {
    if days == [] then 0 else |days[0].classes| + TotalClasses(days[1..])
  }

  /** Where day `i`'s sessions start in the flat list. */
  function Offset(days: seq<Day>, i: nat): (k: nat)
    requires i <= |days|
  {
    if i == 0 then 0 else |days[0].classes| + Offset(days[1..], i - 1)
  }

  ghost predicate AllTimesParse(days: seq<Day>, parse: TimeParser) {
    forall i, j :: 0 <= i < |days| && 0 <= j < |days[i].classes| ==>
      parse(days[i].classes[j].startTime).Some? && parse(days[i].classes[j].endTime).Some?
  }

  lemma {:induction false} SessionsOfDayAt(classes: seq<JsonClass>, weekday: Weekday, parse: TimeParser)
    ensures SessionsOfDay(classes, weekday, parse).Some? <==>
      forall j :: 0 <= j < |classes| ==> FromJsonAndDay(classes[j], weekday, parse).Some?
    ensures SessionsOfDay(classes, weekday, parse).Some? ==>
      var s := SessionsOfDay(classes, weekday, parse).value;
      |s| == |classes| && forall j :: 0 <= j < |classes| ==> s[j] == FromJsonAndDay(classes[j], weekday, parse).value
  {
    if classes != [] {
      SessionsOfDayAt(classes[1..], weekday, parse);
      assert forall j :: 1 <= j < |classes| ==> classes[1..][j - 1] == classes[j];
    }
  }

  /** The loader succeeds exactly when every start and end time of every day parses. */
  lemma {:induction false} FlattenSucceeds(days: seq<Day>, parse: TimeParser)
    ensures Flatten(days, parse).Some? <==> AllTimesParse(days, parse)
  {
    if days != [] {
      FlattenSucceeds(days[1..], parse);
      SessionsOfDayAt(days[0].classes, days[0].weekday, parse);
      assert forall i :: 1 <= i < |days| ==> days[1..][i - 1] == days[i];
      if AllTimesParse(days[1..], parse) && SessionsOfDay(days[0].classes, days[0].weekday, parse).Some? {
        forall i, j | 0 <= i < |days| && 0 <= j < |days[i].classes|
          ensures parse(days[i].classes[j].startTime).Some? && parse(days[i].classes[j].endTime).Some?
        {
          if i > 0 { assert days[i] == days[1..][i - 1]; }
        }
      }
      if AllTimesParse(days, parse) {
        forall i, j | 0 <= i < |days[1..]| && 0 <= j < |days[1..][i].classes|
          ensures parse(days[1..][i].classes[j].startTime).Some? && parse(days[1..][i].classes[j].endTime).Some?
        {
          assert days[1..][i] == days[i + 1];
        }
      }
    }
  }

  /** The flat list holds one session per class: repeated weekdays are neither merged nor dropped. */
  lemma {:induction false} FlattenLength(days: seq<Day>, parse: TimeParser)
    requires Flatten(days, parse).Some?
    ensures |Flatten(days, parse).value| == TotalClasses(days)
  {
    if days != [] {
      FlattenLength(days[1..], parse);
      SessionsOfDayAt(days[0].classes, days[0].weekday, parse);
    }
  }

  lemma {:induction false} OffsetBound(days: seq<Day>, i: nat)
    requires i < |days|
    ensures Offset(days, i) + |days[i].classes| <= TotalClasses(days)
  {
    if i > 0 { OffsetBound(days[1..], i - 1); }
  }

  /**
   * Class `j` of day `i` lands at `Offset(days, i) + j`, tagged with day `i`'s weekday:
   * the output is the days' classes concatenated in day order, then class order.
   */
  lemma {:induction false} FlattenAt(days: seq<Day>, parse: TimeParser, i: nat, j: nat)
    requires Flatten(days, parse).Some?
    requires i < |days| && j < |days[i].classes|
    ensures Offset(days, i) + j < |Flatten(days, parse).value|
    ensures FromJsonAndDay(days[i].classes[j], days[i].weekday, parse).Some?
    ensures Flatten(days, parse).value[Offset(days, i) + j]
         == FromJsonAndDay(days[i].classes[j], days[i].weekday, parse).value
    ensures Flatten(days, parse).value[Offset(days, i) + j].weekday == days[i].weekday
  {
    SessionsOfDayAt(days[0].classes, days[0].weekday, parse);
    var first := SessionsOfDay(days[0].classes, days[0].weekday, parse).value;
    var rest := Flatten(days[1..], parse).value;
    assert Flatten(days, parse).value == first + rest;
    FlattenSucceeds(days, parse);
    if i > 0 {
      FlattenAt(days[1..], parse, i - 1, j);
    }
  }
}
