/**
 * The notifier (bot/src/webhook_manager.rs): a Discord webhook client that posts an
 * "Upcoming Class" message, edits it into "Current Class", and deletes it, keeping
 * in `sent` the id of the message it last posted for each course.
 *
 * The HTTP exchange itself is not modelled: each operation returns the request it
 * issues, and what the server answered is passed in.
 */
module Webhook {
  import opened Wrappers
  import opened Chrono
  import opened Sched

  // ---------------------------------------------------------------- message text

  function Digit(d: int): (c: char)
    requires 0 <= d < 10
    ensures '0' <= c <= '9'
  {
    (48 + d) as char
  }

  function DigitValue(c: char): (n: int) {
    c as int - 48
  }

  /** The `{:02}` rendering of a number below 100. */
  function TwoDigits(n: int): (s: string)
    requires 0 <= n < 100
    ensures |s| == 2 && '0' <= s[0] <= '9' && '0' <= s[1] <= '9'
    ensures DigitValue(s[0]) * 10 + DigitValue(s[1]) == n
  {
    [Digit(n / 10), Digit(n % 10)]
  }

  /** `t.format("%H:%M")`: zero-padded hour, a colon, zero-padded minute. */
  function FormatHM(t: TimeOfDay): (s: string)
    ensures |s| == 5 && s[2] == ':'
  {
    TwoDigits(Hour(t)) + ":" + TwoDigits(Minute(t))
  }

  /** Reads back a strict `HH:MM` string; the inverse of `FormatHM`. */
  function ReadHM(s: string): (t: Option<TimeOfDay>)
  {
    if |s| == 5 && s[2] == ':' && forall k :: k in {0, 1, 3, 4} ==> '0' <= s[k] <= '9' then
      var h := DigitValue(s[0]) * 10 + DigitValue(s[1]);
      var m := DigitValue(s[3]) * 10 + DigitValue(s[4]);
      if h < 24 && m < 60 then Some(h * 60 + m) else None
    else None
  }

  /** Formatting loses nothing: the rendered time reads back as itself. */
  lemma FormatHMRoundTrip(t: TimeOfDay)
    ensures ReadHM(FormatHM(t)) == Some(t)
  {
    var s := FormatHM(t);
    assert s[..2] == TwoDigits(Hour(t)) && s[3..] == TwoDigits(Minute(t));
    assert DigitValue(s[0]) * 10 + DigitValue(s[1]) == Hour(t);
    assert DigitValue(s[3]) * 10 + DigitValue(s[4]) == Minute(t);
  }

  /** Distinct times of day render differently. */
  lemma FormatHMInjective(t1: TimeOfDay, t2: TimeOfDay)
    requires FormatHM(t1) == FormatHM(t2)
    ensures t1 == t2
  {
    FormatHMRoundTrip(t1);
    FormatHMRoundTrip(t2);
  }

  /** The back-quoted time range `` `HH:MM-HH:MM` `` of a class. */
  function TimeRange(c: Class): (s: string)
    ensures |s| == 13 && s[0] == '`' && s[6] == '-' && s[12] == '`'
    ensures s[1..6] == FormatHM(c.startTime) && s[7..12] == FormatHM(c.endTime)
  {
    "`" + FormatHM(c.startTime) + "-" + FormatHM(c.endTime) + "`"
  }

  const NoLinkNote: string := " (Link not available)"

  /**
   * The embed description: the time range, then the course as a Markdown link to the
   * class link, or, without a link, the bare course and a note that there is none.
   */
  function Description(c: Class): (s: string)
    ensures |s| > 13 && s[..13] == TimeRange(c)
    ensures c.link.Some? ==> s[13..] == " [" + c.course + "](" + c.link.value + ")"
    ensures c.link.None? ==> s[13..] == " " + c.course + NoLinkNote
  {
    match c.link
    case Some(l) => TimeRange(c) + " [" + c.course + "](" + l + ")"
    case None => TimeRange(c) + " " + c.course + NoLinkNote
  }

  /** Both times of a class can be read back from its description. */
  lemma DescriptionTimes(c: Class)
    ensures ReadHM(Description(c)[1..6]) == Some(c.startTime)
    ensures ReadHM(Description(c)[7..12]) == Some(c.endTime)
  {
    var s := Description(c);
    assert s[1..6] == TimeRange(c)[1..6];
    assert s[7..12] == TimeRange(c)[7..12];
    FormatHMRoundTrip(c.startTime);
    FormatHMRoundTrip(c.endTime);
  }

  const UpcomingTitle: string := "Upcoming Class"
  const CurrentTitle: string := "Current Class"

  // ---------------------------------------------------------------- URLs

  /** `s.trim_end_matches('/')`. */
  function TrimEndSlashes(s: string): (r: string)
    ensures r <= s
    ensures r == [] || r[|r| - 1] != '/'
    ensures forall k :: |r| <= k < |s| ==> s[k] == '/'
  {
    if s != [] && s[|s| - 1] == '/' then TrimEndSlashes(s[..|s| - 1]) else s
  }

  lemma TrimEndSlashesIdempotent(s: string)
    ensures TrimEndSlashes(TrimEndSlashes(s)) == TrimEndSlashes(s)
  {
  }

  /** The URL a new message is posted to: the webhook, asked to answer with the message. */
  function UpcomingUri(base: string): (u: string)
    ensures |u| == |base| + 10 && u[..|base|] == base && u[|base|..] == "?wait=true"
  {
    base + "?wait=true"
  }

  /** `format!("{}/messages/{}", base, id)`: the URL of one message of the webhook. */
  function MessageUri(base: string, id: string): (u: string)
    ensures |u| == |base| + 10 + |id| && u[..|base|] == base && u[|base| + 10..] == id
    ensures u[|base|..|base| + 10] == "/messages/"
  {
    base + "/messages/" + id
  }

  /** The URL a message is deleted at: the webhook with every trailing slash removed. */
  function DeleteUri(base: string, id: string): (u: string)
  {
    MessageUri(TrimEndSlashes(base), id)
  }

  /**
   * Editing does not strip trailing slashes, deleting does: the two URLs of one
   * message agree exactly when the webhook URL does not end with a slash.
   */
  lemma {:induction false} DeleteUriAgreesWithMessageUri(base: string, id: string)
    ensures DeleteUri(base, id) == MessageUri(base, id) <==> base == [] || base[|base| - 1] != '/'
  {
    if base != [] && base[|base| - 1] == '/' {
      assert |TrimEndSlashes(base)| < |base|;
      assert |DeleteUri(base, id)| < |MessageUri(base, id)|;
    }
  }

  // ---------------------------------------------------------------- requests and responses

  datatype HttpMethod = POST | PATCH | DELETE

  /** A request's JSON body `{"embeds": [{"title": ..., "description": ...}]}`. */
  datatype Embed = Embed(title: string, description: string)

  /** A request issued to the webhook; `embed` is `None` for the empty body of a delete. */
  datatype Request = Request(verb: HttpMethod, uri: string, embed: Option<Embed>)

  /** The post `send_upcoming` issues for `c`: the "Upcoming Class" embed, to the webhook itself. */
  function UpcomingRequest(url: string, c: Class): (req: Request) {
    Request(POST, UpcomingUri(url), Some(Embed(UpcomingTitle, Description(c))))
  }

  /** The edit `set_starting` issues for `c`'s message `id`: the "Current Class" embed. */
  function StartingRequest(url: string, id: string, c: Class): (req: Request) {
    Request(PATCH, MessageUri(url, id), Some(Embed(CurrentTitle, Description(c))))
  }

  /** The delete `delete` and `delete_all` issue for message `id`, with an empty body. */
  function DeleteRequest(url: string, id: string): (req: Request) {
    Request(DELETE, DeleteUri(url, id), None)
  }

  /**
   * The edit and the delete of one message go to the same URL exactly when the
   * webhook URL has no trailing slash; the post carries the same description as the edit.
   */
  lemma RequestsOfOneMessage(url: string, id: string, c: Class)
    ensures StartingRequest(url, id, c).uri == DeleteRequest(url, id).uri <==> url == [] || url[|url| - 1] != '/'
    ensures StartingRequest(url, id, c).embed.value.description == UpcomingRequest(url, c).embed.value.description
  {
    DeleteUriAgreesWithMessageUri(url, id);
  }

  /**
   * What matters of the answer to the post: the upper bound of the body's size hint,
   * if any, and the response's `"id"` field when it is a JSON string.
   */
  datatype PostResponse = PostResponse(sizeUpper: Option<nat>, id: Option<string>)

  /** The outcome of a delete request: no response at all, or an HTTP status. */
  datatype DeleteResponse = RequestFailed | Status(code: nat)

  /** `MAX_RESPONSE_SIZE`: 8 * 1024 bytes. */
  const MaxResponseSize: nat := 8 * 1024

  /** An absent upper size hint counts as exactly the maximum. */
  function SizeUpper(r: PostResponse): (n: nat) {
    match r.sizeUpper
    case Some(n) => n
    case None => MaxResponseSize
  }

  /** Whether the posted message's id is recorded: a small enough body that has a string id. */
  predicate Tracked(r: PostResponse) {
    SizeUpper(r) <= MaxResponseSize && r.id.Some?
  }

  /** `sent` after `send_upcoming` for `course` received `resp`. */
  function AfterUpcoming(sent: map<string, string>, course: string, resp: PostResponse): (r: map<string, string>)
    ensures Tracked(resp) ==> course in r && r[course] == resp.id.value
    ensures !Tracked(resp) ==> r == sent
    ensures forall k :: k != course ==> (k in r <==> k in sent)
    ensures forall k :: k != course && k in sent ==> r[k] == sent[k]
  {
    if SizeUpper(resp) > MaxResponseSize then sent
    else match resp.id
      case Some(id) => sent[course := id]
      case None => sent
  }

  /** `sent` after `delete` for `course`, whatever the request's outcome. */
  function AfterDelete(sent: map<string, string>, course: string): (r: map<string, string>)
    ensures course !in r
    ensures forall k :: k != course ==> (k in r <==> k in sent)
    ensures forall k :: k != course && k in sent ==> r[k] == sent[k]
    ensures |r| == if course in sent then |sent| - 1 else |sent|
  {
    sent - {course}
  }

  /** A record written by a successful post survives the edit and is what the delete targets. */
  lemma UpcomingThenDelete(sent: map<string, string>, course: string, resp: PostResponse)
    requires course !in sent
    ensures AfterDelete(AfterUpcoming(sent, course, resp), course) == sent
  {
  }

  // ---------------------------------------------------------------- the manager

  class WebhookManager {
    /** Course code to the id of the message last posted for it. */
    var sent: map<string, string>
    const webhookUrl: string

    /** `WebhookManager::new`: nothing has been sent yet. */
    constructor (webhookUrl: string)
      ensures this.webhookUrl == webhookUrl && sent == map[]
    {
      this.webhookUrl := webhookUrl;
      sent := map[];
    }

    /**
     * `send_upcoming`: posts the "Upcoming Class" embed and records the new
     * message's id for the course, replacing any earlier one, when `resp` allows it.
     */
    method SendUpcoming(cls: Class, resp: PostResponse) returns (req: Request)
      modifies this
      ensures req == UpcomingRequest(webhookUrl, cls)
      ensures sent == AfterUpcoming(old(sent), cls.course, resp)
    {
      req := UpcomingRequest(webhookUrl, cls);
      if SizeUpper(resp) > MaxResponseSize {
        return;
      }
      if resp.id.Some? {
        sent := sent[cls.course := resp.id.value];
      }
    }

    /**
     * `set_starting`: edits the course's message into the "Current Class" embed. With
     * no record it issues nothing and answers `None`; with one it answers `Some`
     * whatever the response. The record is left as it is.
     */
    method SetStarting(cls: Class) returns (r: Option<()>, req: Option<Request>)
      ensures r.Some? <==> cls.course in sent
      ensures req.Some? <==> cls.course in sent
      ensures cls.course in sent ==>
        req == Some(StartingRequest(webhookUrl, sent[cls.course], cls))
    {
      if cls.course !in sent {
        return None, None;
      }
      var msgId := sent[cls.course];
      req := Some(StartingRequest(webhookUrl, msgId, cls));
      r := Some(());
    }

    /**
     * `delete`: removes the course's record before deleting its message, so the record
     * is gone even when the request fails; answers `Some` only on status 204.
     */
    method Delete(cls: Class, resp: DeleteResponse) returns (r: Option<()>, req: Option<Request>)
      modifies this
      ensures sent == AfterDelete(old(sent), cls.course)
      ensures r.Some? <==> cls.course in old(sent) && resp == Status(204)
      ensures req == if cls.course in old(sent)
                     then Some(DeleteRequest(webhookUrl, old(sent)[cls.course]))
                     else None
    {
      if cls.course !in sent {
        return None, None;
      }
      var msgId := sent[cls.course];
      sent := sent - {cls.course};
      req := Some(DeleteRequest(webhookUrl, msgId));
      if resp.RequestFailed? || resp.code != 204 {
        return None, req;
      }
      r := Some(());
    }

    /**
     * `delete_all`: drains `sent`, deleting each recorded message in the map's
     * (arbitrary) order and stopping at the first delete that does not answer 204;
     * the records not reached are dropped with the rest of the drained map.
     * `Answer(answers, k)` is the outcome of the `k`-th delete issued. `order` lists the
     * courses whose deletes were issued, in that order.
     */
    method DeleteAll(answers: seq<DeleteResponse>) returns (r: Option<()>, requests: seq<Request>, order: seq<string>)
      modifies this
      ensures sent == map[]
      ensures |requests| == |order| <= |old(sent)|
      ensures forall i :: 0 <= i < |order| ==> order[i] in old(sent)
      ensures forall i, j :: 0 <= i < j < |order| ==> order[i] != order[j]
      ensures forall i :: 0 <= i < |order| ==>
        requests[i] == DeleteRequest(webhookUrl, old(sent)[order[i]])
      ensures forall i :: 0 <= i < |order| - 1 ==> Answer(answers, i) == Status(204)
      ensures r.Some? <==> (forall c :: c in old(sent) ==> c in order) && forall i :: 0 <= i < |order| ==> Answer(answers, i) == Status(204)
      ensures r.None? ==> |order| > 0 && Answer(answers, |order| - 1) != Status(204)
    {
      r, requests, order := Drain(webhookUrl, sent, answers);
      sent := map[];
    }
  }

  /** The outcome of the `k`-th delete: `answers[k]`, or no response once `answers` runs out. */
  function Answer(answers: seq<DeleteResponse>, k: int): (r: DeleteResponse)
    ensures 0 <= k < |answers| ==> r == answers[k]
    ensures !(0 <= k < |answers|) ==> r == RequestFailed
  {
    if 0 <= k < |answers| then answers[k] else RequestFailed
  }

  /**
   * The bookkeeping of `delete_all` part-way through `drained`: `order` lists the
   * courses whose deletes were issued, each once, and `pending` the courses not yet
   * reached.
   */
  ghost predicate DrainedSoFar(drained: map<string, string>, pending: set<string>, order: seq<string>)
  {
    && pending <= drained.Keys
    && (forall c :: c in drained ==> (c in pending <==> c !in order))
    && (forall i :: 0 <= i < |order| ==> order[i] in drained)
    && (forall i, j :: 0 <= i < j < |order| ==> order[i] != order[j])
    && |order| + |pending| == |drained|
  }

  /** Issuing the delete of one pending course keeps the bookkeeping. */
  lemma DrainOne(drained: map<string, string>, pending: set<string>, order: seq<string>, course: string)
    requires DrainedSoFar(drained, pending, order)
    requires course in pending
    ensures DrainedSoFar(drained, pending - {course}, order + [course])
  {
    var order', pending' := order + [course], pending - {course};
    assert |pending'| == |pending| - 1;
    assert forall i :: 0 <= i < |order| ==> order'[i] == order[i];
    assert course !in order;
    assert forall c :: c in order' <==> c in order || c == course;
  }

  /** `requests` are the deletes of the messages recorded for `order`, in that order. */
  ghost predicate DeletesFor(url: string, drained: map<string, string>, requests: seq<Request>, order: seq<string>)
  {
    && |requests| == |order|
    && forall i :: 0 <= i < |order| ==>
         order[i] in drained && requests[i] == DeleteRequest(url, drained[order[i]])
  }

  lemma DeleteOne(url: string, drained: map<string, string>, requests: seq<Request>, order: seq<string>, course: string)
    requires DeletesFor(url, drained, requests, order)
    requires course in drained
    ensures DeletesFor(url, drained, requests + [DeleteRequest(url, drained[course])], order + [course])
  {
    var order', requests' := order + [course], requests + [DeleteRequest(url, drained[course])];
    assert forall i :: 0 <= i < |order| ==> order'[i] == order[i] && requests'[i] == requests[i];
  }

  /**
   * The loop of `delete_all` over the drained records `drained` of the webhook at
   * `url`, as `DeleteAll` states it.
   */
  method Drain(url: string, drained: map<string, string>, answers: seq<DeleteResponse>)
    returns (r: Option<()>, requests: seq<Request>, order: seq<string>)
    ensures |requests| == |order| <= |drained|
    ensures forall i :: 0 <= i < |order| ==> order[i] in drained
    ensures forall i, j :: 0 <= i < j < |order| ==> order[i] != order[j]
    ensures forall i :: 0 <= i < |order| ==>
      requests[i] == DeleteRequest(url, drained[order[i]])
    ensures forall i :: 0 <= i < |order| - 1 ==> Answer(answers, i) == Status(204)
    ensures r.Some? <==> (forall c :: c in drained ==> c in order) && forall i :: 0 <= i < |order| ==> Answer(answers, i) == Status(204)
    ensures r.None? ==> |order| > 0 && Answer(answers, |order| - 1) != Status(204)
  {
    var pending := drained.Keys;
    requests, order := [], [];
    var failed := false;
    while pending != {} && !failed
      invariant DrainedSoFar(drained, pending, order)
      invariant DeletesFor(url, drained, requests, order)
      invariant forall i :: 0 <= i < |order| ==> Answer(answers, i) == Status(204) || (failed && i == |order| - 1)
      invariant failed ==> |order| > 0 && Answer(answers, |order| - 1) != Status(204)
      decreases |pending|
    {
      var course :| course in pending;
      var k := |order|;
      var outcome := Answer(answers, k);
      DrainOne(drained, pending, order, course);
      DeleteOne(url, drained, requests, order, course);
      requests := requests + [DeleteRequest(url, drained[course])];
      order := order + [course];
      pending := pending - {course};
      // a failed request and any status but 204 both end the drain
      failed := outcome != Status(204);
      assert |order| - 1 == k;
    }
    r := if failed then None else Some(());
  }
}
