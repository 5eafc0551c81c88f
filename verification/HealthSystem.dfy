/** The health monitor beside the path that takes the startup snapshot
    (src/health.rs:96-293, src/commands/podman/mod.rs:3258-3366 and 3535-3590): two tasks,
    the channel between them, the ack that comes back, the cancellation token, the state
    file and the VM. Any step of either task may come next. */
module HealthSystem {
  import opened Resources
  import opened HealthMonitor

  /** The ack's sender: not made yet, waiting in the channel, with the snapshot path, used,
      or dropped unused. */
  datatype Ack = Unsent | InChannel | WithPath | Used | Lost

  datatype Sys = Sys(
    monitor: Monitor,
    file: Status,
    cancelled: bool,
    listening: bool,   // the snapshot path still has its end of the channel
    ack: Ack,
    paused: bool)

  datatype Step =
    | By(e: Event)
    | Cancel
    | Receive
    | CloseChannel
    | Pause
    | Resume
    | SendAck
    | DropAck

  /** What an event of the monitor needs of its surroundings. */
  predicate Allowed(s: Sys, e: Event) {
    match e
    case Looked(cancelled) => cancelled == s.cancelled
    case Slept(cancelled) => cancelled ==> s.cancelled
    case Triggered(delivered) => delivered == s.listening
    case Answered(Acked) => s.ack.Used?
    case Answered(Dropped) => s.ack.Lost?
    case Answered(Cancelled) => s.cancelled
    case _ => true
  }

  predicate Enabled(s: Sys, step: Step) {
    match step
    case By(e) => Next(s.monitor, e).Some? && Allowed(s, e)
    case Cancel => true
    case Receive => s.listening && s.ack.InChannel?
    case CloseChannel => s.listening
    case Pause => s.ack.WithPath? && !s.paused
    case Resume => s.paused
    case SendAck => s.ack.WithPath?   // also after a resume that failed
    case DropAck => s.ack.WithPath?
  }

  function Apply(s: Sys, step: Step): Sys
    requires Enabled(s, step)
  {
    match step
    case By(e) =>
      s.(monitor := Next(s.monitor, e).value,
         file := if e.Persisted? && e.ok then e.status else s.file,
         ack := if e == Triggered(true) then InChannel else s.ack)
    case Cancel => s.(cancelled := true)
    case Receive => s.(listening := false, ack := WithPath)
    case CloseChannel => s.(listening := false, ack := if s.ack.InChannel? then Lost else s.ack)
    case Pause => s.(paused := true)
    case Resume => s.(paused := false)
    case SendAck => s.(ack := Used)
    case DropAck => s.(ack := Lost)
  }

  ghost predicate Runs(s: Sys, steps: seq<Step>, s': Sys)
    decreases |steps|
  {
    if steps == [] then s' == s
    else Enabled(s, steps[0]) && Runs(Apply(s, steps[0]), steps[1..], s')
  }

  ghost predicate Initial(s: Sys, trigger: bool) {
    s == Sys(Start(trigger), s.file, s.cancelled, trigger, Unsent, false) && (trigger ==> s.file != Healthy)
  }

  ghost predicate Reachable(s: Sys) {
    exists trigger, s0, steps :: Initial(s0, trigger) && Runs(s0, steps, s)
  }

  predicate Outstanding(s: Sys) {
    s.ack.InChannel? || s.ack.WithPath?
  }

  ghost predicate Inv(s: Sys) {
    && MonitorInv(s.monitor)
    && (s.monitor.armed ==> s.ack.Unsent? && s.file != Healthy)
    && (s.monitor.at.Waiting? ==> !s.ack.Unsent? && s.file != Healthy)
    && (Outstanding(s) ==> s.file != Healthy && (s.monitor.at.Waiting? || s.monitor.at == Over(ByCancellation)))
    && (s.paused ==> !s.ack.Unsent? && !s.ack.InChannel?)
    && (s.monitor.at == Over(ContainerStopped) ==> s.file.Stopped?)
    && (s.monitor.at == Over(ByCancellation) ==> s.cancelled)
  }

  lemma StepKeepsInv(s: Sys, step: Step)
    requires Inv(s) && Enabled(s, step)
    ensures Inv(Apply(s, step))
  {
    if step.By? {
      NextKeepsInv(s.monitor, step.e);
    }
  }

  lemma {:induction false} RunKeepsInv(s: Sys, steps: seq<Step>, s': Sys)
    requires Inv(s) && Runs(s, steps, s')
    ensures Inv(s')
    decreases |steps|
  {
    if steps != [] {
      StepKeepsInv(s, steps[0]);
      RunKeepsInv(Apply(s, steps[0]), steps[1..], s');
    }
  }

  lemma ReachableInv(s: Sys)
    requires Reachable(s)
    ensures Inv(s)
  {
    var trigger, s0, steps :| Initial(s0, trigger) && Runs(s0, steps, s);
    RunKeepsInv(s0, steps, s);
  }

  /** No write of `Healthy` can happen between the trigger and the ack's use or loss. */
  lemma HealthyWaitsForTheAck(s: Sys, ok: bool)
    requires Reachable(s) && Enabled(s, By(Persisted(Healthy, ok)))
    ensures !Outstanding(s) && !s.monitor.armed
  {
    ReachableInv(s);
  }

  /** From the trigger until the ack is used or lost the state file does not say `Healthy`, so
      it says `Healthy` of a VM this path has paused only once the path no longer has the ack. */
  lemma HealthyIsInvisibleWhilePaused(s: Sys)
    requires Reachable(s)
    ensures s.monitor.armed || Outstanding(s) ==> s.file != Healthy
    ensures s.paused && s.file.Healthy? ==> s.ack.Used? || s.ack.Lost?
  {
    ReachableInv(s);
  }

  /** With nothing else moving, the monitor gets `Healthy` into the state file exactly when no
      ack is outstanding and no trigger is about to be delivered. Of a paused VM, then, exactly
      when the ack has left the snapshot path: used, as after a resume that failed, or lost. */
  lemma PublishesIffTheAckIsGone(s: Sys)
    requires Reachable(s) && !s.monitor.at.Over? && !s.cancelled
    ensures CanPublishHealthy(s) <==> !Gated(s)
    ensures s.paused ==> (CanPublishHealthy(s) <==> s.ack.Used? || s.ack.Lost?)
  {
    ReachableInv(s);
    if !Gated(s) {
      PublishUngated(s);
    } else {
      forall steps, s' | Runs(s, steps, s') && MonitorOnly(steps)
        ensures s'.file != Healthy
      {
        StaysGated(s, steps, s');
      }
    }
  }

  predicate Gated(s: Sys) {
    Outstanding(s) || (s.monitor.armed && s.listening)
  }

  lemma {:induction false} StaysGated(s: Sys, steps: seq<Step>, s': Sys)
    requires Inv(s) && Gated(s) && !s.cancelled && Runs(s, steps, s') && MonitorOnly(steps)
    ensures s'.file != Healthy
    decreases |steps|
  {
    if steps != [] {
      assert steps[0].By?;
      StepKeepsInv(s, steps[0]);
      StaysGated(Apply(s, steps[0]), steps[1..], s');
    }
  }

  /** `Healthy` is written of a paused VM after the snapshot path gave up its ack, as `prepare`
      and the shutdown paths do: the trigger, a pause, a lost ack, and one more check. */
  lemma HealthyAfterALostAck()
    ensures exists s :: Reachable(s) && s.paused && s.file.Healthy? && s.ack.Lost?
  {
    var s := AsleepAgain();
    s := Reach(s, By(Slept(false)));
    s := Reach(s, By(Checked(Some(Healthy), 0)));
    s := Reach(s, By(Persisted(Healthy, true)));
  }

  lemma AsleepAgain() returns (s: Sys)
    ensures Reachable(s) && s.paused && s.ack.Lost? && s.monitor.at.Asleep? && !s.monitor.armed
  {
    s := LostWhilePaused();
    s := Reach(s, By(Answered(Dropped)));
    s := Reach(s, By(Looked(false)));
  }

  /** And after a resume that failed: the attempt is over, the ack is sent, the VM is not resumed. */
  lemma HealthyAfterAFailedResume()
    ensures exists s :: Reachable(s) && s.paused && s.file.Healthy? && s.ack.Used?
  {
    var s := TriggerSent();
    s := Reach(s, Receive);
    s := Reach(s, Pause);
    s := Reach(s, SendAck);
    s := Reach(s, By(Answered(Acked)));
    s := Reach(s, By(Persisted(Healthy, true)));
  }

  lemma LostWhilePaused() returns (s: Sys)
    ensures Reachable(s) && s.paused && s.ack.Lost? && !s.cancelled
    ensures s.monitor.at.Waiting? && !s.monitor.armed && !s.monitor.first
  {
    s := TriggerSent();
    s := Reach(s, Receive);
    s := Reach(s, Pause);
    s := Reach(s, DropAck);
  }

  lemma TriggerSent() returns (s: Sys)
    ensures Reachable(s) && s.listening && s.ack.InChannel? && !s.cancelled && !s.paused
    ensures s.monitor.at.Waiting? && !s.monitor.armed && !s.monitor.first && s.monitor.seen.Healthy?
  {
    s := Sys(Start(true), Status.Unknown, false, true, Unsent, false);
    assert Initial(s, true) && Runs(s, [], s);
    s := Reach(s, By(Looked(false)));
    s := Reach(s, By(Checked(Some(Healthy), 0)));
    s := Reach(s, By(Triggered(true)));
  }

  lemma Reach(s: Sys, step: Step) returns (s': Sys)
    requires Reachable(s) && Enabled(s, step)
    ensures Reachable(s') && s' == Apply(s, step)
  {
    s' := Apply(s, step);
    var trigger, s0, steps :| Initial(s0, trigger) && Runs(s0, steps, s);
    RunsPush(s0, steps, s, step);
    assert Runs(s0, steps + [step], s');
  }

  lemma {:induction false} RunsPush(s: Sys, steps: seq<Step>, s': Sys, step: Step)
    requires Runs(s, steps, s') && Enabled(s', step)
    ensures Runs(s, steps + [step], Apply(s', step))
    decreases |steps|
  {
    if steps == [] {
      RunsThen(s, step, [], Apply(s, step));
    } else {
      RunsPush(Apply(s, steps[0]), steps[1..], s', step);
      RunsThen(s, steps[0], steps[1..] + [step], Apply(s', step));
      assert [steps[0]] + (steps[1..] + [step]) == steps + [step];
    }
  }

  /** The monitor alone, with nothing else moving, gets `Healthy` into the state file. */
  ghost predicate CanPublishHealthy(s: Sys) {
    exists steps, s' :: Runs(s, steps, s') && MonitorOnly(steps) && s'.file.Healthy?
  }

  ghost predicate MonitorOnly(steps: seq<Step>) {
    forall k :: 0 <= k < |steps| ==> steps[k].By?
  }

  lemma RunsThen(s: Sys, step: Step, rest: seq<Step>, s': Sys)
    requires Enabled(s, step) && Runs(Apply(s, step), rest, s')
    ensures Runs(s, [step] + rest, s')
  {
    assert ([step] + rest)[1..] == rest;
  }

  lemma Publish(s: Sys, step: Step)
    requires Enabled(s, step) && step.By? && CanPublishHealthy(Apply(s, step))
    ensures CanPublishHealthy(s)
  {
    var rest, s' :| Runs(Apply(s, step), rest, s') && MonitorOnly(rest) && s'.file.Healthy?;
    RunsThen(s, step, rest, s');
  }

  lemma PublishFromSaving(s: Sys)
    requires s.monitor.at.Saving? && s.monitor.seen.Healthy?
    ensures CanPublishHealthy(s)
  {
    var step := By(Persisted(Healthy, true));
    assert Runs(Apply(s, step), [], Apply(s, step));
    RunsThen(s, step, [], Apply(s, step));
    assert MonitorOnly([step] + []);
  }

  lemma PublishFromGate(s: Sys)
    requires s.monitor.at.Gate? && s.monitor.seen.Healthy? && !s.listening
    ensures CanPublishHealthy(s)
  {
    var step := By(Triggered(false));
    PublishFromSaving(Apply(s, step));
    Publish(s, step);
  }

  lemma PublishFromChecking(s: Sys)
    requires s.monitor.at.Checking? && !(s.monitor.armed && s.listening)
    ensures CanPublishHealthy(s)
  {
    var step := By(Checked(Some(Healthy), 0));
    var next := Apply(s, step);
    if next.monitor.at.Gate? {
      PublishFromGate(next);
    } else {
      PublishFromSaving(next);
    }
    Publish(s, step);
  }

  lemma PublishFromTop(s: Sys)
    requires s.monitor.at.Top? && !(s.monitor.armed && s.listening) && !s.cancelled
    ensures CanPublishHealthy(s)
  {
    var s1 := Apply(s, By(Looked(false)));
    if s1.monitor.at.Asleep? {
      PublishFromChecking(Apply(s1, By(Slept(false))));
      Publish(s1, By(Slept(false)));
    } else {
      PublishFromChecking(s1);
    }
    Publish(s, By(Looked(false)));
  }

  lemma PublishFromWaiting(s: Sys)
    requires Inv(s) && s.monitor.at.Waiting? && !Outstanding(s) && !s.cancelled
    ensures CanPublishHealthy(s)
  {
    if s.ack.Used? {
      PublishFromSaving(Apply(s, By(Answered(Acked))));
      Publish(s, By(Answered(Acked)));
    } else {
      PublishFromTop(Apply(s, By(Answered(Dropped))));
      Publish(s, By(Answered(Dropped)));
    }
  }

  lemma PublishUngated(s: Sys)
    requires Inv(s) && !Gated(s) && !s.monitor.at.Over? && !s.cancelled
    ensures CanPublishHealthy(s)
  {
    match s.monitor.at
    case Top => PublishFromTop(s);
    case Asleep =>
      PublishFromChecking(Apply(s, By(Slept(false))));
      Publish(s, By(Slept(false)));
    case Checking => PublishFromChecking(s);
    case Gate => PublishFromGate(s);
    case Waiting => PublishFromWaiting(s);
    case Saving =>
      if s.monitor.seen.Healthy? {
        PublishFromSaving(s);
      } else {
        var step := By(Persisted(s.monitor.seen, false));
        PublishFromTop(Apply(s, step));
        Publish(s, step);
      }
  }

  /** An aborted snapshot path never wedges the monitor: a monitor that is not over can
      take a step unless it waits for an ack that is neither used nor lost, uncancelled. */
  lemma NeverWedged(s: Sys)
    requires Reachable(s) && !s.monitor.at.Over?
    ensures (exists e :: Enabled(s, By(e))) <==> !(s.monitor.at.Waiting? && Outstanding(s) && !s.cancelled)
  {
    ReachableInv(s);
    var e := match s.monitor.at
      case Top => Looked(s.cancelled)
      case Asleep => Slept(false)
      case Checking => Checked(None, 0)
      case Gate => Triggered(s.listening)
      case Waiting => Answered(if s.cancelled then Cancelled else if s.ack.Used? then Acked else Dropped)
      case _ => Persisted(s.monitor.seen, false);
    assert Enabled(s, By(e)) <==> !(s.monitor.at.Waiting? && Outstanding(s) && !s.cancelled);
  }

  /** A monitor that is over was cancelled, or left `Stopped` in the state file. */
  lemma OverMeansCancelledOrStopped(s: Sys)
    requires Reachable(s) && s.monitor.at.Over?
    ensures s.cancelled || s.file.Stopped?
  {
    ReachableInv(s);
    match s.monitor.at.why
    case ByCancellation => assert s.cancelled;
    case ContainerStopped => assert s.file.Stopped?;
  }
}
