/** Folding one navigation's network events into one row per request
    (`reduce_net_trace`, bench/chromium/cdpdrive.py:370-548). Times are browser-clock
    seconds; their conversion to rounded milliseconds is left out. */
module NetTrace {
  import opened Resources

  type Rid = string
  type Time = Option<real>

  datatype Reply = Reply(ip: string, port: Option<nat>, protocol: string, status: Option<int>, cached: bool, serviceWorker: bool)

  /** What an event says. Events of another domain, or without a request id, are `Foreign`. */
  datatype Event =
    | Foreign
    | WillBeSent(rid: Rid, url: string, at: Time)
    | ExtraInfo(rid: Rid)
    | FromCache(rid: Rid)
    | Response(rid: Rid, reply: Reply)
    | Finished(rid: Rid, at: Time)
    | Failed(rid: Rid, at: Time, canceled: bool, text: string)
    | OtherNetwork(rid: Rid)

  datatype Row = Row(
    url: string,
    start: Time,
    end: Time,
    reply: Option<Reply>,
    failed: bool,
    canceled: bool,
    error: string,
    redirects: nat,
    fromCache: bool,
    fromServiceWorker: bool,
    sent: bool)

  // ----- what each field means, in terms of the event list -----

  function Announcements(es: seq<Event>, rid: Rid): nat {
    if es == [] then 0
    else Announcements(es[..|es| - 1], rid) + if IsAnnouncement(es[|es| - 1], rid) then 1 else 0
  }

  predicate IsAnnouncement(e: Event, rid: Rid) {
    e.WillBeSent? && e.rid == rid
  }

  /** The first announcement. */
  function First(es: seq<Event>, rid: Rid): Option<Event> {
    if es == [] then None
    else match First(es[..|es| - 1], rid)
      case Some(e) => Some(e)
      case None => if IsAnnouncement(es[|es| - 1], rid) then Some(es[|es| - 1]) else None
  }

  /** The last event of an announced request has come after its announcement. */
  predicate Attached(es: seq<Event>, rid: Rid)
    requires es != []
  {
    var e := es[|es| - 1];
    !e.Foreign? && e.rid == rid && Announcements(es[..|es| - 1], rid) > 0
  }

  /** The first end time reported after the announcement. */
  function EndOf(es: seq<Event>, rid: Rid): Time {
    if es == [] then None
    else match EndOf(es[..|es| - 1], rid)
      case Some(t) => Some(t)
      case None =>
        var e := es[|es| - 1];
        if Attached(es, rid) && (e.Finished? || e.Failed?) then e.at else None
  }

  /** The last failure after the announcement. */
  function LastFailure(es: seq<Event>, rid: Rid): Option<Event> {
    if es == [] then None
    else if Attached(es, rid) && es[|es| - 1].Failed? then Some(es[|es| - 1])
    else LastFailure(es[..|es| - 1], rid)
  }

  function LastReply(es: seq<Event>, rid: Rid): Option<Reply> {
    if es == [] then None
    else if Attached(es, rid) && es[|es| - 1].Response? then Some(es[|es| - 1].reply)
    else LastReply(es[..|es| - 1], rid)
  }

  /** A cache was named at some point after the announcement. */
  predicate EverCached(es: seq<Event>, rid: Rid) {
    es != []
    && (EverCached(es[..|es| - 1], rid)
        || (Attached(es, rid) && (es[|es| - 1].FromCache? || (es[|es| - 1].Response? && es[|es| - 1].reply.cached))))
  }

  /** The row of an announced request. It was sent to the network exactly when an ExtraInfo
      event for it occurs anywhere, before the announcement or after. */
  function RowOf(es: seq<Event>, rid: Rid): Row
    requires First(es, rid).Some?
  {
    var first, failure, reply := First(es, rid).value, LastFailure(es, rid), LastReply(es, rid);
    FirstIsAnnouncement(es, rid);
    FailureIsFailed(es, rid);
    Row(first.url, first.at, EndOf(es, rid), reply,
        failure.Some?, failure.Some? && failure.value.canceled, if failure.Some? then failure.value.text else "",
        Announcements(es, rid) - 1, EverCached(es, rid), reply.Some? && reply.value.serviceWorker,
        ExtraInfo(rid) in es)
  }

  lemma {:induction false} FirstIsAnnouncement(es: seq<Event>, rid: Rid)
    ensures First(es, rid).Some? <==> Announcements(es, rid) > 0
    ensures First(es, rid).Some? ==> IsAnnouncement(First(es, rid).value, rid)
  {
    if es != [] {
      FirstIsAnnouncement(es[..|es| - 1], rid);
    }
  }

  lemma {:induction false} FailureIsFailed(es: seq<Event>, rid: Rid)
    ensures LastFailure(es, rid).Some? ==> LastFailure(es, rid).value.Failed?
  {
    if es != [] {
      FailureIsFailed(es[..|es| - 1], rid);
    }
  }

  /** The announced ids, in the order of their first announcements. */
  function Order(es: seq<Event>): seq<Rid> {
    if es == [] then []
    else
      var e := es[|es| - 1];
      var before := Order(es[..|es| - 1]);
      if e.WillBeSent? && Announcements(es[..|es| - 1], e.rid) == 0 then before + [e.rid] else before
  }

  lemma {:induction false} OrderIsTheAnnounced(es: seq<Event>, rid: Rid)
    ensures rid in Order(es) <==> Announcements(es, rid) > 0
  {
    if es != [] {
      OrderIsTheAnnounced(es[..|es| - 1], rid);
    }
  }

  lemma {:induction false} OrderIsDistinct(es: seq<Event>, i: nat, j: nat)
    requires i < j < |Order(es)|
    ensures Order(es)[i] != Order(es)[j]
  {
    var front := es[..|es| - 1];
    if j < |Order(front)| {
      OrderIsDistinct(front, i, j);
    } else {
      OrderIsTheAnnounced(front, Order(es)[j]);
    }
  }

  // ----- the fold -----

  /** What one event does to the row it is attached to. */
  function Attach(row: Row, e: Event): Row {
    match e
    case WillBeSent(_, _, _) => row.(redirects := row.redirects + 1)
    case ExtraInfo(_) => row.(sent := true)
    case FromCache(_) => row.(fromCache := true)
    case Response(_, reply) =>
      row.(reply := Some(reply), fromCache := row.fromCache || reply.cached, fromServiceWorker := reply.serviceWorker)
    case Finished(_, at) => row.(end := if row.end.None? then at else row.end)
    case Failed(_, at, canceled, text) =>
      row.(end := if row.end.None? then at else row.end, failed := true, canceled := canceled, error := text)
    case OtherNetwork(_) => row
    case Foreign => row
  }

  function NewRow(e: Event, sent: bool): Row
    requires e.WillBeSent?
  {
    Row(e.url, e.at, None, None, false, false, "", 0, false, false, sent)
  }

  /** An event attached to a row makes it the row of the longer list. */
  lemma AttachKeepsRow(es: seq<Event>, e: Event)
    requires !e.Foreign? && First(es, e.rid).Some?
    ensures First(es + [e], e.rid).Some?
    ensures Attach(RowOf(es, e.rid), e) == RowOf(es + [e], e.rid)
  {
    assert (es + [e])[..|es|] == es;
    FirstIsAnnouncement(es, e.rid);
  }

  /** An event of another request leaves the row alone. */
  lemma OtherKeepsRow(es: seq<Event>, e: Event, rid: Rid)
    requires (e.Foreign? || e.rid != rid) && First(es, rid).Some?
    ensures First(es + [e], rid).Some? && RowOf(es + [e], rid) == RowOf(es, rid)
  {
    assert (es + [e])[..|es|] == es;
  }

  lemma {:induction false} NothingBeforeAnnouncement(es: seq<Event>, rid: Rid)
    requires Announcements(es, rid) == 0
    ensures EndOf(es, rid).None? && LastFailure(es, rid).None? && LastReply(es, rid).None? && !EverCached(es, rid)
  {
    if es != [] {
      NothingBeforeAnnouncement(es[..|es| - 1], rid);
    }
  }

  lemma NewRowIsRow(es: seq<Event>, e: Event)
    requires e.WillBeSent? && First(es, e.rid).None?
    ensures First(es + [e], e.rid).Some?
    ensures NewRow(e, ExtraInfo(e.rid) in es) == RowOf(es + [e], e.rid)
  {
    assert (es + [e])[..|es|] == es;
    FirstIsAnnouncement(es, e.rid);
    NothingBeforeAnnouncement(es, e.rid);
  }

  /** Every announced id has its row, unannounced ids have none, and the ids remembered for
      later are right about the unannounced ones. */
  ghost predicate Folded(es: seq<Event>, rows: map<Rid, Row>, order: seq<Rid>, sentEarly: set<Rid>) {
    order == Order(es) && forall rid :: Right(es, rows, sentEarly, rid)
  }

  ghost predicate Right(es: seq<Event>, rows: map<Rid, Row>, sentEarly: set<Rid>, rid: Rid) {
    && (rid in rows <==> First(es, rid).Some?)
    && (rid in rows ==> rows[rid] == RowOf(es, rid))
    && (First(es, rid).None? ==> (rid in sentEarly <==> ExtraInfo(rid) in es))
  }

  /** Putting the right row for the last event's request keeps the fold right. */
  lemma FoldedPut(es: seq<Event>, e: Event, rows: map<Rid, Row>, order: seq<Rid>, sentEarly: set<Rid>, row: Row)
    requires Folded(es, rows, order, sentEarly) && !e.Foreign?
    requires First(es + [e], e.rid).Some? && row == RowOf(es + [e], e.rid)
    ensures Folded(es + [e], rows[e.rid := row], Order(es + [e]), sentEarly)
  {
    forall rid | rid != e.rid
      ensures SameFor(es, es + [e], rid)
    {
      OtherKeepsRequest(es, e, rid);
    }
    FoldedReplace(es, es + [e], e.rid, rows, order, sentEarly, row);
  }

  /** Two lists say the same of one request. */
  ghost predicate SameFor(es: seq<Event>, es': seq<Event>, rid: Rid) {
    && First(es', rid) == First(es, rid) && (ExtraInfo(rid) in es' <==> ExtraInfo(rid) in es)
    && (First(es, rid).Some? ==> RowOf(es', rid) == RowOf(es, rid))
  }

  lemma OtherKeepsRequest(es: seq<Event>, e: Event, rid: Rid)
    requires e.Foreign? || e.rid != rid
    ensures SameFor(es, es + [e], rid)
  {
    assert (es + [e])[..|es|] == es;
    if First(es, rid).Some? {
      OtherKeepsRow(es, e, rid);
    }
  }

  lemma FoldedReplace(es: seq<Event>, es': seq<Event>, changed: Rid, rows: map<Rid, Row>, order: seq<Rid>,
                      sentEarly: set<Rid>, row: Row)
    requires Folded(es, rows, order, sentEarly) && forall rid :: rid != changed ==> SameFor(es, es', rid)
    requires First(es', changed).Some? && row == RowOf(es', changed)
    ensures Folded(es', rows[changed := row], Order(es'), sentEarly)
  {
    var rows' := rows[changed := row];
    forall rid
      ensures Right(es', rows', sentEarly, rid)
    {
      if rid != changed {
        assert SameFor(es, es', rid) && Right(es, rows, sentEarly, rid);
      }
    }
  }

  lemma FoldedAttach(es: seq<Event>, e: Event, rows: map<Rid, Row>, order: seq<Rid>, sentEarly: set<Rid>)
    requires Folded(es, rows, order, sentEarly) && !e.Foreign? && e.rid in rows
    ensures Folded(es + [e], rows[e.rid := Attach(rows[e.rid], e)], order, sentEarly)
  {
    assert Right(es, rows, sentEarly, e.rid);
    assert (es + [e])[..|es|] == es;
    FirstIsAnnouncement(es, e.rid);
    AttachKeepsRow(es, e);
    FoldedPut(es, e, rows, order, sentEarly, Attach(rows[e.rid], e));
  }

  lemma FoldedAnnounce(es: seq<Event>, e: Event, rows: map<Rid, Row>, order: seq<Rid>, sentEarly: set<Rid>)
    requires Folded(es, rows, order, sentEarly) && e.WillBeSent? && e.rid !in rows
    ensures Folded(es + [e], rows[e.rid := NewRow(e, e.rid in sentEarly)], order + [e.rid], sentEarly)
  {
    assert Right(es, rows, sentEarly, e.rid);
    assert (es + [e])[..|es|] == es;
    FirstIsAnnouncement(es, e.rid);
    NewRowIsRow(es, e);
    FoldedPut(es, e, rows, order, sentEarly, NewRow(e, e.rid in sentEarly));
  }

  lemma FoldedPass(es: seq<Event>, e: Event, rows: map<Rid, Row>, order: seq<Rid>, sentEarly: set<Rid>)
    requires Folded(es, rows, order, sentEarly) && !e.WillBeSent? && (e.Foreign? || e.rid !in rows)
    ensures Folded(es + [e], rows, order, if e.ExtraInfo? then sentEarly + {e.rid} else sentEarly)
  {
    assert (es + [e])[..|es|] == es;
    var early := if e.ExtraInfo? then sentEarly + {e.rid} else sentEarly;
    forall rid
      ensures Right(es + [e], rows, early, rid)
    {
      assert Right(es, rows, sentEarly, rid);
      if e.Foreign? || e.rid != rid {
        OtherKeepsRequest(es, e, rid);
      }
    }
  }

  /** The event loop: a dictionary of rows, the order they were made in, and the ids whose
      ExtraInfo came first. */
  method FoldEvents(events: seq<Event>) returns (rows: map<Rid, Row>, order: seq<Rid>)
    ensures order == Order(events)
    ensures forall rid :: rid in rows <==> First(events, rid).Some?
    ensures forall rid :: rid in rows ==> rows[rid] == RowOf(events, rid)
  {
    rows, order := map[], [];
    var sentEarly: set<Rid> := {};
    for i := 0 to |events|
      invariant Folded(events[..i], rows, order, sentEarly)
    {
      var e := events[i];
      assert events[..i + 1] == events[..i] + [e];
      if e.Foreign? || (e.rid !in rows && !e.WillBeSent?) {
        FoldedPass(events[..i], e, rows, order, sentEarly);
        if e.ExtraInfo? {
          sentEarly := sentEarly + {e.rid};
        }
      } else if e.rid !in rows {
        FoldedAnnounce(events[..i], e, rows, order, sentEarly);
        rows := rows[e.rid := NewRow(e, e.rid in sentEarly)];
        order := order + [e.rid];
      } else {
        FoldedAttach(events[..i], e, rows, order, sentEarly);
        rows := rows[e.rid := Attach(rows[e.rid], e)];
      }
    }
    assert events[..|events|] == events;
    forall rid
      ensures rid in rows <==> First(events, rid).Some?
      ensures rid in rows ==> rows[rid] == RowOf(events, rid)
    {
      assert Right(events, rows, sentEarly, rid);
    }
  }

  // ----- against the load event -----

  datatype Request = Request(rid: Rid, row: Row, finishedBeforeLoad: bool, pendingAtLoad: bool)

  predicate FinishedBefore(row: Row, load: Time) {
    row.end.Some? && !row.failed && load.Some? && row.end.value <= load.value
  }

  predicate StartedBy(row: Row, load: Time) {
    load.None? || (row.start.Some? && row.start.value <= load.value)
  }

  predicate PendingAt(row: Row, load: Time) {
    StartedBy(row, load) && (row.end.None? || (load.Some? && row.end.value > load.value))
  }

  predicate FailedBefore(row: Row, load: Time) {
    row.end.Some? && row.failed && load.Some? && row.end.value <= load.value
  }

  function RequestOf(events: seq<Event>, load: Time, rid: Rid): Request
    requires First(events, rid).Some?
  {
    var row := RowOf(events, rid);
    Request(rid, row, FinishedBefore(row, load), PendingAt(row, load))
  }

  /** Finished and pending exclude each other; with a known load time, a request started by
      then is exactly one of pending, finished and failed before it. */
  lemma StartedRowsSplit(row: Row, load: Time)
    ensures !(FinishedBefore(row, load) && PendingAt(row, load))
    ensures load.Some? && StartedBy(row, load) ==>
              && (PendingAt(row, load) || FinishedBefore(row, load) || FailedBefore(row, load))
              && !(PendingAt(row, load) && FailedBefore(row, load))
              && !(FinishedBefore(row, load) && FailedBefore(row, load))
  {
  }

  function Finishes(rs: seq<Request>): nat {
    if rs == [] then 0 else Finishes(rs[..|rs| - 1]) + if rs[|rs| - 1].finishedBeforeLoad then 1 else 0
  }

  function Pendings(rs: seq<Request>): nat {
    if rs == [] then 0 else Pendings(rs[..|rs| - 1]) + if rs[|rs| - 1].pendingAtLoad then 1 else 0
  }

  function Failures(rs: seq<Request>): nat {
    if rs == [] then 0 else Failures(rs[..|rs| - 1]) + if rs[|rs| - 1].row.failed then 1 else 0
  }

  ghost function FailuresBefore(rs: seq<Request>, load: Time): nat {
    if rs == [] then 0
    else FailuresBefore(rs[..|rs| - 1], load) + if FailedBefore(rs[|rs| - 1].row, load) then 1 else 0
  }

  ghost predicate Judged(rs: seq<Request>, load: Time) {
    forall i :: 0 <= i < |rs| ==>
      rs[i].finishedBeforeLoad == FinishedBefore(rs[i].row, load) && rs[i].pendingAtLoad == PendingAt(rs[i].row, load)
  }

  /** The requests that had started when the page had loaded, in order. */
  ghost function Started(rs: seq<Request>, load: Time): seq<Request> {
    if rs == [] then []
    else
      var last := rs[|rs| - 1];
      Started(rs[..|rs| - 1], load) + if StartedBy(last.row, load) then [last] else []
  }

  lemma {:induction false} StartedAre(rs: seq<Request>, load: Time)
    requires Judged(rs, load)
    ensures Judged(Started(rs, load), load) && AllStarted(Started(rs, load), load)
  {
    if rs != [] {
      StartedAre(rs[..|rs| - 1], load);
    }
  }

  ghost predicate AllStarted(rs: seq<Request>, load: Time) {
    forall i :: 0 <= i < |rs| ==> StartedBy(rs[i].row, load)
  }

  /** What is pending has started. */
  lemma {:induction false} PendingAreStarted(rs: seq<Request>, load: Time)
    requires Judged(rs, load)
    ensures Pendings(Started(rs, load)) == Pendings(rs)
  {
    if rs != [] {
      var front, last := rs[..|rs| - 1], rs[|rs| - 1];
      PendingAreStarted(front, load);
      if StartedBy(last.row, load) {
        assert (Started(front, load) + [last])[..|Started(front, load)|] == Started(front, load);
      } else {
        assert Started(rs, load) == Started(front, load);
      }
    }
  }

  lemma {:induction false} StartedSplit(rs: seq<Request>, load: Time)
    requires Judged(rs, load) && load.Some? && AllStarted(rs, load)
    ensures |rs| == Pendings(rs) + Finishes(rs) + FailuresBefore(rs, load)
  {
    if rs != [] {
      StartedSplit(rs[..|rs| - 1], load);
      StartedRowsSplit(rs[|rs| - 1].row, load);
    }
  }

  lemma {:induction false} AllStartWithoutLoad(rs: seq<Request>)
    ensures Started(rs, None) == rs
  {
    if rs != [] {
      AllStartWithoutLoad(rs[..|rs| - 1]);
      assert rs == rs[..|rs| - 1] + [rs[|rs| - 1]];
    }
  }

  lemma {:induction false} NoLoadNoFinish(rs: seq<Request>)
    requires Judged(rs, None)
    ensures Finishes(rs) == 0 && Pendings(rs) == Endless(rs)
  {
    if rs != [] {
      NoLoadNoFinish(rs[..|rs| - 1]);
      assert Judged([rs[|rs| - 1]], None);
    }
  }

  /** So the counts add up: with a known load time the requests started by then are the pending
      ones, those of them that finished and those that failed. Without one nothing has finished,
      and the pending requests are those without an end. */
  lemma CountsAddUp(rs: seq<Request>, load: Time)
    requires Judged(rs, load)
    ensures
      var started := Started(rs, load);
      load.Some? ==> |started| == Pendings(rs) + Finishes(started) + FailuresBefore(started, load)
    ensures load.None? ==> Started(rs, load) == rs && Finishes(rs) == 0 && Pendings(rs) == Endless(rs)
  {
    if load.Some? {
      StartedAre(rs, load);
      PendingAreStarted(rs, load);
      StartedSplit(Started(rs, load), load);
    } else {
      AllStartWithoutLoad(rs);
      NoLoadNoFinish(rs);
    }
  }

  function Endless(rs: seq<Request>): nat {
    if rs == [] then 0 else Endless(rs[..|rs| - 1]) + if rs[|rs| - 1].row.end.None? then 1 else 0
  }

  lemma CountPush(rs: seq<Request>, x: Request)
    ensures Finishes(rs + [x]) == Finishes(rs) + if x.finishedBeforeLoad then 1 else 0
    ensures Failures(rs + [x]) == Failures(rs) + if x.row.failed then 1 else 0
    ensures Pendings(rs + [x]) == Pendings(rs) + if x.pendingAtLoad then 1 else 0
  {
    assert (rs + [x])[..|rs|] == rs;
  }

  lemma ListedHasARow(es: seq<Event>, i: nat)
    requires i < |Order(es)|
    ensures First(es, Order(es)[i]).Some?
  {
    OrderIsTheAnnounced(es, Order(es)[i]);
    FirstIsAnnouncement(es, Order(es)[i]);
  }

  /** `reduce_net_trace`: one row per announced id, in order, and the summary's counts. */
  method ReduceNetTrace(events: seq<Event>, load: Time)
    returns (requests: seq<Request>, finished: nat, failed: nat, pending: nat)
    ensures |requests| == |Order(events)|
    ensures forall i :: 0 <= i < |requests| ==>
              First(events, Order(events)[i]).Some? && requests[i] == RequestOf(events, load, Order(events)[i])
    ensures Judged(requests, load)
    ensures finished == Finishes(requests) && failed == Failures(requests) && pending == Pendings(requests)
  {
    var rows, order := FoldEvents(events);
    requests, finished, failed, pending := [], 0, 0, 0;
    for i := 0 to |order|
      invariant |requests| == i
      invariant forall k :: 0 <= k < i ==>
                  First(events, order[k]).Some? && requests[k] == RequestOf(events, load, order[k])
      invariant finished == Finishes(requests) && failed == Failures(requests) && pending == Pendings(requests)
    {
      ListedHasARow(events, i);
      var r := rows[order[i]];
      var request := Request(order[i], r, FinishedBefore(r, load), PendingAt(r, load));
      CountPush(requests, request);
      requests := requests + [request];
      finished := finished + if request.finishedBeforeLoad then 1 else 0;
      failed := failed + if r.failed then 1 else 0;
      pending := pending + if request.pendingAtLoad then 1 else 0;
    }
  }

  // ----- where an ExtraInfo event comes does not matter -----

  function Core(es: seq<Event>): seq<Event> {
    if es == [] then []
    else if es[|es| - 1].ExtraInfo? then Core(es[..|es| - 1])
    else Core(es[..|es| - 1]) + [es[|es| - 1]]
  }

  lemma {:induction false} CoreDecides(es: seq<Event>, rid: Rid)
    ensures Announcements(Core(es), rid) == Announcements(es, rid) && First(Core(es), rid) == First(es, rid)
    ensures EndOf(Core(es), rid) == EndOf(es, rid) && LastFailure(Core(es), rid) == LastFailure(es, rid)
    ensures LastReply(Core(es), rid) == LastReply(es, rid) && EverCached(Core(es), rid) == EverCached(es, rid)
  {
    if es != [] {
      var front, e := es[..|es| - 1], es[|es| - 1];
      CoreDecides(front, rid);
      if !e.ExtraInfo? {
        assert (Core(front) + [e])[..|Core(front)|] == Core(front);
      }
    }
  }

  lemma {:induction false} CoreDecidesOrder(es: seq<Event>)
    ensures Order(Core(es)) == Order(es)
  {
    if es != [] {
      var front, e := es[..|es| - 1], es[|es| - 1];
      CoreDecidesOrder(front);
      if !e.ExtraInfo? {
        assert (Core(front) + [e])[..|Core(front)|] == Core(front);
        if e.WillBeSent? {
          CoreDecides(front, e.rid);
        }
      }
    }
  }

  /** Two traces that differ only in where their ExtraInfo events come, or in how often each
      is repeated, give the same rows in the same order. */
  lemma ExtraInfoMayComeAnywhere(a: seq<Event>, b: seq<Event>, rid: Rid)
    requires Core(a) == Core(b) && forall r :: ExtraInfo(r) in a <==> ExtraInfo(r) in b
    ensures Order(a) == Order(b)
    ensures First(a, rid) == First(b, rid)
    ensures First(a, rid).Some? ==> RowOf(a, rid) == RowOf(b, rid)
  {
    CoreDecidesOrder(a);
    CoreDecidesOrder(b);
    CoreDecides(a, rid);
    CoreDecides(b, rid);
  }
}
