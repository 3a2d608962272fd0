/** Supervision of a local process: pause, resume, terminate and time out, within the lease. */
module ProcessSupervision {
  import opened Basics
  import opened ExecutionPolicy
  import opened ExecutionLedger

  datatype Signal = Stop | Continue | Kill
  datatype ProcessState = Live | Stopped | Ended

  /** What one turn of the polling loop sees: whether the output has been read to the end (or
      reading it, the control or a signal failed), the clock, and the requested control. */
  datatype Progress = Working | Drained | Broke
  datatype Reading = Reading(progress: Progress, time: Time, control: Control)

  datatype Ending = Exited | Crashed | TimedOut | Terminated

  /** The process works on, in time, and nobody has asked to terminate it. */
  predicate GoesOn(r: Reading, deadline: Time) {
    r.progress == Working && r.time < deadline && r.control != Terminate
  }

  /** The turn before which nothing ended the supervision. */
  predicate Reaches(readings: seq<Reading>, deadline: Time, turn: nat) {
    turn <= |readings| && forall k | 0 <= k < turn :: GoesOn(readings[k], deadline)
  }

  /** Stop and continue in turn, starting with stop, with a kill only at the end. */
  predicate Alternate(signals: seq<Signal>) {
    forall i | 0 <= i < |signals| && signals[i] != Kill :: signals[i] == if i % 2 == 0 then Stop else Continue
  }

  /** How often the requested control differs from what the process was doing. */
  function Switches(readings: seq<Reading>): nat {
    if readings == [] then 0
    else
      var last := |readings| - 1;
      var before := last > 0 && readings[last - 1].control == Pause;
      Switches(readings[..last]) + if (readings[last].control == Pause) != before then 1 else 0
  }

  class ProcessGroup {
    var state: ProcessState
    var signals: seq<Signal>

    constructor ()
      ensures state == Live && signals == []
    {
      state, signals := Live, [];
    }

    method Send(s: Signal)
      requires state != Ended
      modifies this
      ensures signals == old(signals) + [s]
      ensures state == match s case Stop => Stopped case Continue => Live case Kill => Ended
    {
      signals := signals + [s];
      state := match s case Stop => Stopped case Continue => Live case Kill => Ended;
    }

    /** The process closes its output and is reaped. */
    method Reap()
      modifies this`state
      ensures state == Ended
    {
      state := Ended;
    }
  }

  method Supervise(p: ProcessGroup, readings: seq<Reading>, deadline: Time)
    returns (ending: Option<Ending>, turns: nat, paused: bool)
    requires p.state == Live && p.signals == []
    modifies p
    ensures Reaches(readings, deadline, turns)
    ensures ending.None? ==> turns == |readings|
    ensures ending.Some? ==> turns < |readings| && !GoesOn(readings[turns], deadline)
    ensures ending.Some? ==>
      var r := readings[turns];
      && (ending.value == Exited <==> r.progress == Drained)
      && (ending.value == Crashed <==> r.progress == Broke)
      && (ending.value == TimedOut <==> r.progress == Working && r.time >= deadline)
      && (ending.value == Terminated <==> r.progress == Working && r.time < deadline && r.control == Terminate)
    ensures paused <==> turns > 0 && readings[turns - 1].control == Pause
    ensures ending.None? ==> p.state == (if paused then Stopped else Live) && |p.signals| == Switches(readings)
    ensures ending.Some? ==> p.state == Ended
    ensures ending == Some(Exited) ==> Kill !in p.signals
    ensures ending.Some? && ending != Some(Exited) ==>
      p.signals != [] && p.signals[|p.signals| - 1] == Kill && |p.signals| == Switches(readings[..turns]) + 1
    ensures Alternate(p.signals)
  {
    paused := false;
    for i := 0 to |readings|
      invariant Reaches(readings, deadline, i)
      invariant paused <==> i > 0 && readings[i - 1].control == Pause
      invariant p.state == if paused then Stopped else Live
      invariant |p.signals| == Switches(readings[..i]) && (paused <==> |p.signals| % 2 == 1)
      invariant Alternate(p.signals) && Kill !in p.signals
    {
      var r := readings[i];
      if r.progress == Drained {
        p.Reap();
        return Some(Exited), i, paused;
      }
      if r.progress == Broke || r.time >= deadline || r.control == Terminate {
        p.Send(Kill);
        return Some(if r.progress == Broke then Crashed else if r.time >= deadline then TimedOut else Terminated), i, paused;
      }
      assert readings[..i + 1][..i] == readings[..i];
      if r.control == Pause && !paused {
        p.Send(Stop);
        paused := true;
      } else if r.control == Resume && paused {
        p.Send(Continue);
        paused := false;
      }
    }
    assert readings[..|readings|] == readings;
    return None, |readings|, paused;
  }

  // ---------------------------------------------------------------- the lease outlives the process

  /** Turns come in order and at most `latency` apart, the first no later than that after the start. */
  predicate Paced(readings: seq<Reading>, start: Time, latency: Time) {
    && (forall k | 0 <= k < |readings| :: start <= readings[k].time)
    && (|readings| > 0 ==> readings[0].time <= start + latency)
    && (forall k | 0 < k < |readings| :: readings[k - 1].time <= readings[k].time <= readings[k - 1].time + latency)
  }

  /** No process outlives its lease: whatever the readings, the turn that ends it comes no later than
      the moment the lease can be recovered. */
  ghost predicate NeverOutlives(claimed: Time, start: Time, timeout: Time, latency: Time) {
    forall readings: seq<Reading>, turn: nat |
        Paced(readings, start, latency) && Reaches(readings, start + timeout, turn) && turn < |readings| ::
      readings[turn].time <= claimed + LEASE_TIME
  }

  lemma EndsInTime(readings: seq<Reading>, start: Time, timeout: Time, latency: Time, turn: nat)
    requires timeout > 0 && Paced(readings, start, latency)
    requires Reaches(readings, start + timeout, turn) && turn < |readings|
    ensures readings[turn].time <= start + timeout - 1 + latency
  {
    if turn > 0 {
      assert GoesOn(readings[turn - 1], start + timeout);
    }
  }

  /** A supervision that polls every microsecond and then stalls for the whole latency. */
  function Stalled(start: Time, timeout: Time, latency: Time): seq<Reading>
    requires timeout > 0
  {
    seq(timeout, k requires 0 <= k < timeout => Reading(Working, start + k, Resume))
      + [Reading(Working, start + timeout - 1 + latency, Resume)]
  }

  /** The exact slack: start-up, timeout and polling latency together must fit into the lease. */
  lemma SlackIff(claimed: Time, start: Time, timeout: Time, latency: Time)
    requires claimed <= start && timeout > 0 && latency > 0
    ensures NeverOutlives(claimed, start, timeout, latency) <==> (start - claimed) + timeout + latency <= LEASE_TIME + 1
  {
    if (start - claimed) + timeout + latency <= LEASE_TIME + 1 {
      forall readings: seq<Reading>, turn: nat |
          Paced(readings, start, latency) && Reaches(readings, start + timeout, turn) && turn < |readings|
        ensures readings[turn].time <= claimed + LEASE_TIME
      {
        EndsInTime(readings, start, timeout, latency, turn);
      }
    } else {
      var readings := Stalled(start, timeout, latency);
      assert Paced(readings, start, latency);
      assert Reaches(readings, start + timeout, timeout);
      assert readings[timeout].time > claimed + LEASE_TIME;
    }
  }

  /** With at most 100 seconds of start-up and latency, an operator cannot recover the lease while
      its process is still supervised. */
  lemma NotRecoverableWhileRunning(l: Ledger, i: nat, claimed: Time, start: Time, timeout: Time, latency: Time,
                                   readings: seq<Reading>, turn: nat)
    requires claimed <= start && 0 < timeout <= 900_000_000 && latency > 0
    requires (start - claimed) + latency <= 100_000_000
    requires Paced(readings, start, latency) && Reaches(readings, start + timeout, turn) && turn < |readings|
    requires i < |l.leases| && l.leases[i].state == Running && l.leases[i].expiresAt == claimed + 1_000_000_000
    requires FindByRun(l.leases, l.leases[i].company, l.leases[i].run) == Some(i)
    requires l.clock < readings[turn].time
    ensures Recover(l, l.leases[i].run, l.leases[i].company) == Err(NotAbandoned)
  {
    SlackIff(claimed, start, timeout, latency);
  }
}
