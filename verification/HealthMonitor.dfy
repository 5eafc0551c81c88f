/** The polling loop of one VM's health monitor (src/health.rs).

    `Next` is one step of the loop: it accepts an event exactly when the loop could perform
    it next. `Watch` is the loop itself, and its log is a run of `Next`. */
module HealthMonitor {
  import opened Resources

  datatype Status = Unknown | Healthy | Unhealthy | Timeout | Unreachable | Stopped

  const POLL_MIN := 100
  const POLL_MAX := 5000
  const POLL_HEALTHY := 10000

  function Clamp(took: nat): (r: nat)
    ensures POLL_MIN <= r <= POLL_MAX
    ensures POLL_MIN <= took <= POLL_MAX ==> r == took
  {
    if took < POLL_MIN then POLL_MIN else if took > POLL_MAX then POLL_MAX else took
  }

  datatype Ending = ByCancellation | ContainerStopped

  /** Where the loop is: at its top, asleep, checking, about to send the trigger, waiting
      for the ack, about to write the state file, or over. */
  datatype At = Top | Asleep | Checking | Gate | Waiting | Saving | Over(why: Ending)

  datatype Monitor = Monitor(
    at: At,
    poll: nat,
    isHealthy: bool,
    armed: bool,       // the startup trigger has not been taken
    first: bool,
    failures: nat,
    seen: Status,      // what the last check saw, and how long it took
    took: nat)

  datatype Answer = Acked | Dropped | Cancelled

  datatype Event =
    | Looked(cancelled: bool)
    | Slept(cancelled: bool)
    | Checked(result: Option<Status>, took: nat)
    | Triggered(delivered: bool)
    | Answered(answer: Answer)
    | Persisted(status: Status, ok: bool)

  function Start(trigger: bool): Monitor {
    Monitor(Top, POLL_MIN, false, trigger, true, 0, Status.Unknown, 0)
  }

  /** The bookkeeping that ends an iteration. */
  function Settle(m: Monitor, persisted: bool): Monitor {
    var healthy := m.seen.Healthy?;
    m.(failures := if healthy then 0 else m.failures + 1,
       isHealthy := healthy,
       poll := if !healthy then Clamp(m.took) else if m.isHealthy then m.poll else POLL_HEALTHY,
       at := if m.seen.Stopped? && persisted then Over(ContainerStopped) else Top)
  }

  function AfterCheck(m: Monitor, result: Option<Status>, took: nat): Monitor {
    match result
    case None => Settle(m.(seen := Status.Unknown, took := took), false)
    case Some(status) =>
      m.(seen := status, took := took,
         at := if status.Healthy? && !m.isHealthy && m.armed then Gate else Saving)
  }

  function Next(m: Monitor, e: Event): Option<Monitor> {
    match (m.at, e)
    case (Top, Looked(cancelled)) =>
      Some(if cancelled then m.(at := Over(ByCancellation))
           else m.(at := if m.first then Checking else Asleep, first := false))
    case (Asleep, Slept(cancelled)) => Some(m.(at := if cancelled then Over(ByCancellation) else Checking))
    case (Checking, Checked(result, took)) => Some(AfterCheck(m, result, took))
    case (Gate, Triggered(delivered)) => Some(m.(armed := false, at := if delivered then Waiting else Saving))
    case (Waiting, Answered(answer)) =>
      Some(m.(at := match answer case Acked => Saving case Dropped => Top case Cancelled => Over(ByCancellation)))
    case (Saving, Persisted(status, ok)) => if status == m.seen then Some(Settle(m, ok)) else None
    case _ => None
  }

  ghost function After(trigger: bool, es: seq<Event>): Option<Monitor> {
    if es == [] then Some(Start(trigger))
    else match After(trigger, es[..|es| - 1])
      case None => None
      case Some(m) => Next(m, es[|es| - 1])
  }

  /** Polling is at 10 s exactly when the VM is healthy, and `isHealthy` means the trigger
      is spent, as does any wait for its answer. */
  ghost predicate MonitorInv(m: Monitor) {
    && (m.poll == POLL_HEALTHY <==> m.isHealthy)
    && (m.isHealthy ==> !m.armed)
    && (m.at.Gate? ==> m.armed && !m.isHealthy && m.seen.Healthy?)
    && (m.at.Waiting? ==> !m.armed && !m.isHealthy && m.seen.Healthy?)
    && (m.at.Saving? && m.seen.Healthy? ==> !m.armed)
  }

  lemma NextKeepsInv(m: Monitor, e: Event)
    requires MonitorInv(m) && Next(m, e).Some?
    ensures MonitorInv(Next(m, e).value)
  {
  }

  ghost function Triggers(es: seq<Event>): nat {
    if es == [] then 0 else Triggers(es[..|es| - 1]) + if es[|es| - 1].Triggered? then 1 else 0
  }

  /** In every run of the loop the trigger is sent at most once, and it is spent exactly
      when it has been sent or was never there. */
  lemma {:induction false} TriggerIsOneShot(trigger: bool, es: seq<Event>)
    requires After(trigger, es).Some?
    ensures MonitorInv(After(trigger, es).value)
    ensures Triggers(es) <= 1
    ensures !After(trigger, es).value.armed <==> !trigger || Triggers(es) == 1
    ensures After(trigger, es).value.isHealthy ==> !trigger || Triggers(es) == 1
  {
    if es != [] {
      var front := es[..|es| - 1];
      TriggerIsOneShot(trigger, front);
      NextKeepsInv(After(trigger, front).value, es[|es| - 1]);
    }
  }

  /** The loop ends only by cancellation or right after `Stopped` reached the state file. */
  lemma EndsForAReason(trigger: bool, es: seq<Event>)
    requires After(trigger, es).Some? && After(trigger, es).value.at.Over?
    ensures es != []
    ensures
      var last := es[|es| - 1];
      || last == Persisted(Stopped, true)
      || last == Looked(true) || last == Slept(true) || last == Answered(Cancelled)
  {
    var m := After(trigger, es[..|es| - 1]).value;
    assert Next(m, es[|es| - 1]).Some?;
  }

  /** The check that a status about to be written came from, in the same iteration: a
      `Healthy` one first passed the trigger if the trigger was still armed. */
  ghost predicate FromItsCheck(es: seq<Event>, status: Status) {
    || (|es| >= 1 && IsCheck(es[|es| - 1], status))
    || (|es| >= 2 && status.Healthy? && IsCheck(es[|es| - 2], Healthy) && es[|es| - 1] == Triggered(false))
    || (|es| >= 3 && status.Healthy? && IsCheck(es[|es| - 3], Healthy)
        && es[|es| - 2] == Triggered(true) && es[|es| - 1] == Answered(Acked))
  }

  ghost predicate IsCheck(e: Event, status: Status) {
    e.Checked? && e.result == Some(status)
  }

  ghost predicate ReachedBy(es: seq<Event>, m: Monitor) {
    match m.at
    case Gate => |es| >= 1 && IsCheck(es[|es| - 1], Healthy)
    case Waiting => |es| >= 2 && IsCheck(es[|es| - 2], Healthy) && es[|es| - 1] == Triggered(true)
    case Saving => FromItsCheck(es, m.seen)
    case _ => true
  }

  lemma {:induction false} PointIsReachedBy(trigger: bool, es: seq<Event>)
    requires After(trigger, es).Some?
    ensures ReachedBy(es, After(trigger, es).value)
  {
    if es != [] {
      var front, e := es[..|es| - 1], es[|es| - 1];
      TriggerIsOneShot(trigger, front);
      PointIsReachedBy(trigger, front);
      var m := After(trigger, front).value;
      assert Next(m, e).Some?;
    }
  }

  /** No stale status is ever written: what is written is what the same iteration's check
      saw, so a `Healthy` seen before an abandoned snapshot is discarded. */
  lemma WritesAreFresh(trigger: bool, es: seq<Event>, k: nat)
    requires k < |es| && After(trigger, es[..k + 1]).Some? && es[k].Persisted?
    ensures FromItsCheck(es[..k], es[k].status)
  {
    assert es[..k + 1][..k] == es[..k];
    PointIsReachedBy(trigger, es[..k]);
  }

  // ----- the loop itself -----

  /** What the host answers, by the number of events so far. */
  datatype Host = Host(
    cancelled: nat -> bool,
    check: nat -> Option<Status>,
    took: nat -> nat,
    delivered: nat -> bool,
    answer: nat -> Answer,
    written: nat -> bool)

  predicate Truthful(host: Host, at: nat, e: Event) {
    match e
    case Looked(cancelled) => cancelled == host.cancelled(at)
    case Slept(cancelled) => cancelled == host.cancelled(at)
    case Checked(result, took) => result == host.check(at) && took == host.took(at)
    case Triggered(delivered) => delivered == host.delivered(at)
    case Answered(answer) => answer == host.answer(at)
    case Persisted(_, ok) => ok == host.written(at)
  }

  ghost predicate Logged(host: Host, trigger: bool, log: seq<Event>, m: Monitor) {
    After(trigger, log) == Some(m) && forall k :: 0 <= k < |log| ==> Truthful(host, k, log[k])
  }

  ghost function Looks(es: seq<Event>): nat {
    if es == [] then 0 else Looks(es[..|es| - 1]) + if es[|es| - 1].Looked? then 1 else 0
  }

  lemma LogPush(host: Host, trigger: bool, log: seq<Event>, m: Monitor, e: Event)
    requires Logged(host, trigger, log, m) && Truthful(host, |log|, e) && Next(m, e).Some?
    ensures Logged(host, trigger, log + [e], Next(m, e).value)
    ensures Looks(log + [e]) == Looks(log) + if e.Looked? then 1 else 0
  {
    assert (log + [e])[..|log|] == log;
  }

  /** The top of an iteration: look at the token, and sleep unless this is the first. */
  method Rest(host: Host, trigger: bool, log: seq<Event>, firstCheck: bool, ghost m: Monitor)
    returns (log': seq<Event>, stop: bool)
    requires Logged(host, trigger, log, m) && m.at.Top? && m.first == firstCheck
    ensures Looks(log') == Looks(log) + 1
    ensures Logged(host, trigger, log',
                   if stop then m.(at := Over(ByCancellation)) else m.(first := false, at := Checking))
  {
    stop := host.cancelled(|log|);
    log' := log + [Looked(stop)];
    LogPush(host, trigger, log, m, Looked(stop));
    if !stop && !firstCheck {
      stop := host.cancelled(|log'|);
      LogPush(host, trigger, log', m.(at := Asleep), Slept(stop));
      log' := log' + [Slept(stop)];
    }
  }

  method Check(host: Host, trigger: bool, log: seq<Event>, ghost m: Monitor)
    returns (log': seq<Event>, result: Option<Status>, took: nat)
    requires Logged(host, trigger, log, m) && m.at.Checking?
    ensures Logged(host, trigger, log', AfterCheck(m, result, took)) && Looks(log') == Looks(log)
  {
    result, took := host.check(|log|), host.took(|log|);
    log' := log + [Checked(result, took)];
    LogPush(host, trigger, log, m, Checked(result, took));
  }

  method Save(host: Host, trigger: bool, log: seq<Event>, status: Status, ghost m: Monitor)
    returns (log': seq<Event>, persisted: bool)
    requires Logged(host, trigger, log, m) && m.at.Saving? && m.seen == status
    ensures Logged(host, trigger, log', Settle(m, persisted)) && Looks(log') == Looks(log)
  {
    persisted := host.written(|log|);
    log' := log + [Persisted(status, persisted)];
    LogPush(host, trigger, log, m, Persisted(status, persisted));
  }

  /** The trigger, and the wait for its answer. */
  method Announce(host: Host, trigger: bool, log: seq<Event>, ghost m: Monitor)
    returns (log': seq<Event>, answer: Answer, ghost m': Monitor)
    requires Logged(host, trigger, log, m) && m.at.Gate?
    ensures Logged(host, trigger, log', m') && Looks(log') == Looks(log)
    ensures m' == m.(armed := false,
                     at := match answer case Acked => Saving case Dropped => Top case Cancelled => Over(ByCancellation))
  {
    var delivered := host.delivered(|log|);
    LogPush(host, trigger, log, m, Triggered(delivered));
    m', log' := Next(m, Triggered(delivered)).value, log + [Triggered(delivered)];
    answer := Acked;
    if delivered {
      answer := host.answer(|log'|);
      LogPush(host, trigger, log', m', Answered(answer));
      m', log' := Next(m', Answered(answer)).value, log' + [Answered(answer)];
    }
  }

  /** The loop of `spawn_health_monitor_full`, over its first `turns` iterations: its log is
      a run of `Next` with the host's own answers, ending with the loop's variables, and it
      falls short of `turns` iterations only when the loop is over. */
  method Watch(host: Host, trigger: bool, turns: nat) returns (log: seq<Event>, end: Monitor)
    ensures Logged(host, trigger, log, end)
    ensures end.at.Over? || (end.at.Top? && Looks(log) == turns)
  {
    var poll, isHealthy, armed, firstCheck, failures := POLL_MIN, false, trigger, true, 0;
    log, end := [], Start(trigger);
    var turn := 0;
    while turn < turns
      invariant turn <= turns && Looks(log) == turn
      invariant Logged(host, trigger, log, end) && end.at.Top?
      invariant end.poll == poll && end.isHealthy == isHealthy && end.armed == armed
      invariant end.first == firstCheck && end.failures == failures
    {
      turn := turn + 1;
      var stop;
      log, stop := Rest(host, trigger, log, firstCheck, end);
      if stop {
        return log, end.(at := Over(ByCancellation));
      }
      firstCheck := false;
      ghost var m := end.(first := false, at := Checking);
      var result, took;
      log, result, took := Check(host, trigger, log, m);
      m := AfterCheck(m, result, took);
      var status := if result.Some? then result.value else Status.Unknown;
      if status.Healthy? && !isHealthy && armed {
        armed := false;
        var answer;
        log, answer, m := Announce(host, trigger, log, m);
        if answer.Cancelled? {
          return log, Monitor(Over(ByCancellation), poll, isHealthy, armed, false, failures, status, took);
        }
        if answer.Dropped? {
          end := Monitor(Top, poll, isHealthy, armed, false, failures, status, took);
          continue;
        }
      }
      var persisted := false;
      if result.Some? {
        log, persisted := Save(host, trigger, log, status, m);
        m := Settle(m, persisted);
      }
      failures := if status.Healthy? then 0 else failures + 1;
      if status.Healthy? {
        if !isHealthy {
          isHealthy, poll := true, POLL_HEALTHY;
        }
      } else {
        isHealthy, poll := false, Clamp(took);
      }
      end := Monitor(Top, poll, isHealthy, armed, false, failures, status, took);
      if status.Stopped? && persisted {
        return log, end.(at := Over(ContainerStopped));
      }
    }
  }
}
