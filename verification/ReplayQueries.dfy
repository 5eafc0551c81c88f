/** The bracket records of a replay run, held against the DNS log
    (`check_replay_queries`, bench/chromium/campaign_summary.py:888-983). Parsing is left
    out: a line is a record or not, and a log row is a qualifying answer for a name or not. */
module ReplayQueries {
  import opened Resources

  const STAGES := ["pre", "before-run", "after-run"]

  datatype Record = Record(stage: string, since: nat, queries: nat, seen: nat, wanted: nat, missing: string)

  /** A row of the log: an answer of this server, of the right type, with a replay address,
      to a query for `qname`; or anything else. */
  datatype Row = Answer(qname: string) | Other

  datatype Why =
    | WrongCount
    | NotARecord
    | WrongStage
    | NamesMissing
    | NoHosts
    | SeenShort
    | TooFewQueries
    | OtherHosts
    | ReachesBack
    | ClaimsUnlogged
    | HostUnlogged

  /** Refused at a bracket, or before any. */
  datatype Refusal = Refusal(at: nat, why: Why)

  /** The names answered in a slice of the log; an empty slice when it starts at or past its
      end. */
  function Answered(rows: seq<Row>, lo: nat, hi: nat): (names: seq<string>)
    requires hi <= |rows|
    decreases hi
  {
    if hi <= lo then []
    else Answered(rows, lo, hi - 1) + if rows[hi - 1].Answer? then [rows[hi - 1].qname] else []
  }

  /** Where a bracket's window is read to: the next bracket's first row, or the log's end. */
  function WindowEnd(lines: seq<Option<Record>>, index: nat, length: nat): (end: nat)
    ensures end <= length
  {
    if index + 1 < |lines| && lines[index + 1].Some? && lines[index + 1].value.since <= length
    then lines[index + 1].value.since
    else length
  }

  function Previous(lines: seq<Option<Record>>, index: nat): int
    requires index <= |lines| && forall k :: 0 <= k < index ==> lines[k].Some?
  {
    if index == 0 then -1 else lines[index - 1].value.since
  }

  /** A well-formed record: of its stage, about the bracket's own hosts, all of them seen in
      enough queries, and opening after the bracket before. */
  ghost predicate WellFormed(r: Record, stage: string, hosts: set<string>, previous: int) {
    && r.stage == stage && r.missing == "none"
    && 1 <= |hosts| == r.wanted == r.seen <= r.queries
    && previous < r.since
  }

  /** What each fault of a bracket means, with `names` the names answered in its window. */
  predicate Faulty(why: Why, r: Record, stage: string, hosts: set<string>, previous: int, names: seq<string>) {
    match why
    case WrongStage => r.stage != stage
    case NamesMissing => r.missing != "none"
    case NoHosts => r.wanted < 1
    case SeenShort => r.seen != r.wanted
    case TooFewQueries => r.queries < r.seen
    case OtherHosts => r.wanted != |hosts|
    case ReachesBack => r.since <= previous
    case ClaimsUnlogged => |names| < r.queries
    case HostUnlogged => exists h :: h in hosts && h !in names
    case _ => false
  }

  /** The order the faults are looked for in. */
  function Rank(why: Why): nat {
    match why
    case WrongCount => 0
    case NotARecord => 1
    case WrongStage => 2
    case NamesMissing => 3
    case NoHosts => 4
    case SeenShort => 5
    case TooFewQueries => 6
    case OtherHosts => 7
    case ReachesBack => 8
    case ClaimsUnlogged => 9
    case HostUnlogged => 10
  }

  /** The first fault of a bracket. */
  ghost predicate IsFirst(why: Why, r: Record, stage: string, hosts: set<string>, previous: int, names: seq<string>) {
    && Faulty(why, r, stage, hosts, previous, names)
    && forall w: Why :: Rank(w) < Rank(why) ==> !Faulty(w, r, stage, hosts, previous, names)
  }

  /** The checks of one bracket before the log is read, in order. */
  function RecordFault(r: Record, stage: string, hosts: set<string>, previous: int): (fault: Option<Why>)
    ensures fault.None? <==> WellFormed(r, stage, hosts, previous)
    ensures fault.Some? ==> forall names :: IsFirst(fault.value, r, stage, hosts, previous, names)
  {
    if r.stage != stage then Some(WrongStage)
    else if r.missing != "none" then Some(NamesMissing)
    else if r.wanted < 1 then Some(NoHosts)
    else if r.seen != r.wanted then Some(SeenShort)
    else if r.queries < r.seen then Some(TooFewQueries)
    else if r.wanted != |hosts| then Some(OtherHosts)
    else if r.since <= previous then Some(ReachesBack)
    else None
  }

  /** A bracket's record is accepted: well formed, and borne out by the log. */
  ghost predicate BracketOk(lines: seq<Option<Record>>, rows: seq<Row>, hosts: seq<set<string>>, index: nat)
    requires index < |lines| == |hosts| == |STAGES| && forall k :: 0 <= k < index ==> lines[k].Some?
  {
    && lines[index].Some?
    && WellFormed(lines[index].value, STAGES[index], hosts[index], Previous(lines, index))
    && BornOut(lines[index].value, rows, hosts[index], WindowEnd(lines, index, |rows|))
  }

  ghost predicate BornOut(r: Record, rows: seq<Row>, hosts: set<string>, end: nat)
    requires end <= |rows|
  {
    var names := Answered(rows, r.since, end);
    r.queries <= |names| && forall h :: h in hosts ==> h in names
  }

  ghost predicate AcceptedTo(lines: seq<Option<Record>>, rows: seq<Row>, hosts: seq<set<string>>, n: nat)
    requires n <= |lines| == |hosts| == |STAGES|
    decreases n
  {
    n == 0 || (AcceptedTo(lines, rows, hosts, n - 1) && AllRecords(lines, n - 1) && BracketOk(lines, rows, hosts, n - 1))
  }

  ghost predicate AllRecords(lines: seq<Option<Record>>, n: nat)
    requires n <= |lines|
  {
    forall k :: 0 <= k < n ==> lines[k].Some?
  }

  /** The whole file is accepted. `hosts` are the names each bracket checked. */
  ghost predicate Accepted(lines: seq<Option<Record>>, rows: seq<Row>, hosts: seq<set<string>>)
    requires |hosts| == |STAGES|
  {
    |lines| == |STAGES| && AcceptedTo(lines, rows, hosts, |STAGES|)
  }

  lemma {:induction false} AcceptedIsRecords(lines: seq<Option<Record>>, rows: seq<Row>, hosts: seq<set<string>>, n: nat)
    requires n <= |lines| == |hosts| == |STAGES| && AcceptedTo(lines, rows, hosts, n)
    ensures AllRecords(lines, n)
  {
    if n > 0 {
      AcceptedIsRecords(lines, rows, hosts, n - 1);
    }
  }

  /** The file is refused at the first bracket that is not accepted, for its first fault. */
  ghost predicate RefusedFor(lines: seq<Option<Record>>, rows: seq<Row>, hosts: seq<set<string>>, at: nat, why: Why)
    requires |hosts| == |STAGES|
  {
    if |lines| != |STAGES| then at == 0 && why.WrongCount?
    else
      && at < |STAGES| && AcceptedTo(lines, rows, hosts, at) && AllRecords(lines, at)
      && if lines[at].None? then why.NotARecord?
         else
           var r := lines[at].value;
           IsFirst(why, r, STAGES[at], hosts[at], Previous(lines, at),
                   Answered(rows, r.since, WindowEnd(lines, at, |rows|)))
  }

  /** `check_replay_queries`. */
  method CheckReplayQueries(lines: seq<Option<Record>>, rows: seq<Row>, hosts: seq<set<string>>)
    returns (refusal: Option<Refusal>)
    requires |hosts| == |STAGES|
    ensures refusal.None? <==> Accepted(lines, rows, hosts)
    ensures refusal.Some? ==> RefusedFor(lines, rows, hosts, refusal.value.at, refusal.value.why)
  {
    if |lines| != |STAGES| {
      return Some(Refusal(0, WrongCount));
    }
    var previous: int := -1;
    for index := 0 to |STAGES|
      invariant AcceptedTo(lines, rows, hosts, index) && AllRecords(lines, index)
      invariant previous == Previous(lines, index)
    {
      if lines[index].None? {
        NotAccepted(lines, rows, hosts, index);
        return Some(Refusal(index, NotARecord));
      }
      var r := lines[index].value;
      var fault := RecordFault(r, STAGES[index], hosts[index], previous);
      if fault.Some? {
        NotAccepted(lines, rows, hosts, index);
        return Some(Refusal(index, fault.value));
      }
      previous := r.since;
      var names := Answered(rows, r.since, WindowEnd(lines, index, |rows|));
      if |names| < r.queries {
        NotAccepted(lines, rows, hosts, index);
        return Some(Refusal(index, ClaimsUnlogged));
      }
      if exists h :: h in hosts[index] && h !in names {
        NotAccepted(lines, rows, hosts, index);
        return Some(Refusal(index, HostUnlogged));
      }
    }
    return None;
  }

  lemma NotAccepted(lines: seq<Option<Record>>, rows: seq<Row>, hosts: seq<set<string>>, index: nat)
    requires index < |lines| == |hosts| == |STAGES| && AllRecords(lines, index)
    requires !BracketOk(lines, rows, hosts, index)
    ensures !AcceptedTo(lines, rows, hosts, |STAGES|)
  {
    assert !AcceptedTo(lines, rows, hosts, index + 1);
    StaysRefused(lines, rows, hosts, index + 1, |STAGES|);
  }

  lemma {:induction false} StaysRefused(lines: seq<Option<Record>>, rows: seq<Row>, hosts: seq<set<string>>, i: nat, n: nat)
    requires i <= n <= |lines| == |hosts| == |STAGES| && !AcceptedTo(lines, rows, hosts, i)
    ensures !AcceptedTo(lines, rows, hosts, n)
    decreases n
  {
    if i < n {
      StaysRefused(lines, rows, hosts, i, n - 1);
    }
  }

  // ----- what acceptance means -----

  lemma {:induction false} AnsweredSplit(rows: seq<Row>, lo: nat, mid: nat, hi: nat)
    requires lo <= mid <= hi <= |rows|
    ensures Answered(rows, lo, hi) == Answered(rows, lo, mid) + Answered(rows, mid, hi)
    decreases hi
  {
    if mid < hi {
      AnsweredSplit(rows, lo, mid, hi - 1);
    }
  }

  lemma {:induction false} AnsweredRows(rows: seq<Row>, lo: nat, hi: nat, name: string)
    requires hi <= |rows|
    ensures name in Answered(rows, lo, hi) <==> exists k :: lo <= k < hi && rows[k] == Answer(name)
    decreases hi
  {
    if lo < hi {
      AnsweredRows(rows, lo, hi - 1, name);
    }
  }

  lemma AcceptedBracket(lines: seq<Option<Record>>, rows: seq<Row>, hosts: seq<set<string>>, i: nat)
    requires |hosts| == |STAGES| && Accepted(lines, rows, hosts) && i < |STAGES|
    ensures AllRecords(lines, |STAGES|) && BracketOk(lines, rows, hosts, i)
  {
    AcceptedIsRecords(lines, rows, hosts, |STAGES|);
    if !BracketOk(lines, rows, hosts, i) {
      NotAccepted(lines, rows, hosts, i);
    }
  }

  /** An accepted bracket claims something, so its window is a real part of the log, and it
      ends where the next one may begin. */
  lemma WindowIsReal(lines: seq<Option<Record>>, rows: seq<Row>, hosts: seq<set<string>>, i: nat)
    requires |hosts| == |STAGES| && Accepted(lines, rows, hosts) && i < |STAGES|
    ensures lines[i].Some? && lines[i].value.since < WindowEnd(lines, i, |rows|) <= |rows|
    ensures i + 1 < |STAGES| ==> lines[i + 1].Some? && WindowEnd(lines, i, |rows|) <= lines[i + 1].value.since
  {
    AcceptedBracket(lines, rows, hosts, i);
    var r := lines[i].value;
    assert r.queries >= 1;
    assert |Answered(rows, r.since, WindowEnd(lines, i, |rows|))| >= 1;
  }

  /** The windows are pairwise disjoint, in order. */
  lemma {:induction false} WindowsAreDisjoint(lines: seq<Option<Record>>, rows: seq<Row>, hosts: seq<set<string>>, i: nat, j: nat)
    requires |hosts| == |STAGES| && Accepted(lines, rows, hosts) && i < j < |STAGES|
    ensures lines[j].Some? && WindowEnd(lines, i, |rows|) <= lines[j].value.since
    decreases j
  {
    WindowIsReal(lines, rows, hosts, i);
    if i + 1 < j {
      WindowsAreDisjoint(lines, rows, hosts, i, j - 1);
      WindowIsReal(lines, rows, hosts, j - 1);
    }
  }

  ghost function Claimed(lines: seq<Option<Record>>, n: nat): nat
    requires n <= |lines| && AllRecords(lines, n)
  {
    if n == 0 then 0 else Claimed(lines, n - 1) + lines[n - 1].value.queries
  }

  lemma {:induction false} ClaimsFitSoFar(lines: seq<Option<Record>>, rows: seq<Row>, hosts: seq<set<string>>, n: nat)
    requires |hosts| == |STAGES| && Accepted(lines, rows, hosts) && 0 < n <= |STAGES|
    ensures AllRecords(lines, n)
    ensures Claimed(lines, n) <= |Answered(rows, 0, WindowEnd(lines, n - 1, |rows|))|
  {
    AcceptedBracket(lines, rows, hosts, n - 1);
    WindowIsReal(lines, rows, hosts, n - 1);
    var since, end := lines[n - 1].value.since, WindowEnd(lines, n - 1, |rows|);
    AnsweredSplit(rows, 0, since, end);
    if n > 1 {
      ClaimsFitSoFar(lines, rows, hosts, n - 1);
      WindowIsReal(lines, rows, hosts, n - 2);
      AnsweredSplit(rows, 0, WindowEnd(lines, n - 2, |rows|), since);
    }
  }

  /** All claimed queries together are at most the qualifying rows of the log. */
  lemma ClaimsFitTheLog(lines: seq<Option<Record>>, rows: seq<Row>, hosts: seq<set<string>>)
    requires |hosts| == |STAGES| && Accepted(lines, rows, hosts)
    ensures AllRecords(lines, |STAGES|)
    ensures Claimed(lines, |STAGES|) <= |Answered(rows, 0, |rows|)|
  {
    ClaimsFitSoFar(lines, rows, hosts, |STAGES|);
  }

  /** Every host of an accepted bracket was answered inside that bracket's own window. */
  lemma HostsWereAnsweredInside(lines: seq<Option<Record>>, rows: seq<Row>, hosts: seq<set<string>>, i: nat, host: string)
    requires |hosts| == |STAGES| && Accepted(lines, rows, hosts) && i < |STAGES| && host in hosts[i]
    ensures lines[i].Some?
    ensures exists k :: lines[i].value.since <= k < WindowEnd(lines, i, |rows|) && rows[k] == Answer(host)
  {
    AcceptedBracket(lines, rows, hosts, i);
    AnsweredRows(rows, lines[i].value.since, WindowEnd(lines, i, |rows|), host);
  }

  /** The record says what the log held when the bracket ended, at row `end`. */
  ghost predicate Truthful(r: Record, rows: seq<Row>, hosts: set<string>, end: nat)
    requires end <= |rows|
  {
    var names := Answered(rows, r.since, end);
    r.queries == |names| && forall h :: h in hosts ==> h in names
  }

  /** A truthful record whose bracket ended by the next one's first row is never refused by
      the log: the window read is no smaller than the real one. */
  lemma TruthIsNotRefused(lines: seq<Option<Record>>, rows: seq<Row>, hosts: set<string>, i: nat, end: nat)
    requires i < |lines| && lines[i].Some? && lines[i].value.since <= end <= WindowEnd(lines, i, |rows|)
    requires Truthful(lines[i].value, rows, hosts, end)
    ensures BornOut(lines[i].value, rows, hosts, WindowEnd(lines, i, |rows|))
  {
    AnsweredSplit(rows, lines[i].value.since, end, WindowEnd(lines, i, |rows|));
  }
}
