/** The graceful shutdown of a cloud node (cloud/shutdown.go, and the sequence in cloud/main.go): ordered
    steps under one shared deadline, none of which stops the others by failing. */
module Shutdown {
  datatype Phase = SignalDrain | DispatcherLoop | ConsumerGroup | PrinterSockets | PublicListener | InternalListener

  /** What the node did: the steps it attempted with their results, and each DELCONSUMER it sent. */
  datatype Event = Attempted(phase: Phase, failed: bool) | DelConsumer(loopReturned: bool)

  /** No consumer is deleted before a step has waited for the dispatcher loop. */
  predicate WaitsFirst(steps: seq<Phase>) {
    forall k :: 0 <= k < |steps| && steps[k] == ConsumerGroup ==> DispatcherLoop in steps[..k]
  }

  function Attempts(log: seq<Event>): seq<Phase> {
    if log == [] then []
    else Attempts(log[..|log| - 1]) + if log[|log| - 1].Attempted? then [log[|log| - 1].phase] else []
  }

  class Node {
    var draining: bool
    var stopped: bool         // the dispatcher's context is cancelled
    var returned: bool        // its loop has returned
    var expired: bool         // the shutdown deadline has passed
    var told: bool            // the printers' sockets were sent a going-away
    var closed: set<Phase>    // the listeners whose Shutdown was called
    const mtls: bool          // the internal listener is configured
    const pending: bool       // this node's consumer still holds entries
    const faulty: Phase -> bool // steps whose own commands fail, the deadline aside
    var log: seq<Event>

    constructor (mtls: bool, pending: bool, faulty: Phase -> bool)
      ensures this.mtls == mtls && this.pending == pending && this.faulty == faulty
      ensures !draining && !stopped && !expired && !told && closed == {} && log == []
    {
      draining, stopped, returned, expired, told, closed, log := false, false, false, false, false, {}, [];
      this.mtls, this.pending, this.faulty := mtls, pending, faulty;
    }

    /** Time passes: the loop may return and the deadline may pass, and neither is undone. */
    method Elapse()
      modifies `returned, `expired
      ensures old(returned) ==> returned
      ensures old(expired) ==> expired
    {
      var loopEnds: bool, timeIsUp: bool := *, *;
      returned, expired := returned || loopEnds, expired || timeIsUp;
    }

    /** waitFor(ctx, dispatcherDone): it blocks until one of the two is ready; if both are, either may win. */
    method WaitFor() returns (err: bool)
      modifies `returned, `expired
      ensures old(returned) ==> returned
      ensures old(expired) ==> expired
      ensures if err then expired else returned
    {
      Elapse();
      var first: bool := *;
      if first && !returned {
        expired := true;
      }
      if !expired {
        returned := true;
      }
      err := expired && (!returned || first);
    }

    /** A Redis command under the shutdown context: past the deadline it is not even sent. */
    method Command(deletes: bool) returns (err: bool)
      modifies `returned, `expired, `log
      ensures old(returned) ==> returned
      ensures old(expired) ==> expired && err
      ensures err ==> expired || faulty(ConsumerGroup)
      ensures faulty(ConsumerGroup) ==> err
      ensures log == old(log) + if deletes && !old(expired) then [DelConsumer(old(returned))] else []
    {
      if expired {
        return true;
      }
      if deletes {
        log := log + [DelConsumer(returned)];
      }
      Elapse();
      var tooLate: bool := *;
      err := faulty(ConsumerGroup) || (expired && tooLate);
    }

    /** RemoveConsumer: XPENDING, and XGROUP DELCONSUMER if that showed nothing pending. */
    method RemoveConsumer() returns (err: bool)
      requires returned || expired
      modifies `returned, `expired, `log
      ensures old(returned) ==> returned
      ensures old(expired) ==> expired && err && log == old(log)
      ensures log == old(log) || (log == old(log) + [DelConsumer(true)] && !pending)
      ensures !err && !pending ==> log == old(log) + [DelConsumer(true)]
      ensures err ==> expired || faulty(ConsumerGroup)
      ensures faulty(ConsumerGroup) ==> err
    {
      err := Command(false);
      if err || pending {
        return;
      }
      err := Command(true);
    }

    /** The body of one step. */
    method Run(phase: Phase) returns (err: bool)
      requires phase == ConsumerGroup ==> returned || expired
      modifies `draining, `stopped, `returned, `expired, `told, `closed, `log
      ensures old(returned) ==> returned
      ensures old(expired) ==> expired
      ensures draining == (old(draining) || phase == SignalDrain)
      ensures stopped == (old(stopped) || phase == DispatcherLoop)
      ensures phase == DispatcherLoop ==> if err then expired else returned
      ensures told == (old(told) || phase == PrinterSockets)
      ensures closed == old(closed)
                        + if phase == PublicListener || (phase == InternalListener && mtls) then {phase} else {}
      ensures err ==> expired || faulty(phase)
      ensures err ==> phase != SignalDrain && phase != PrinterSockets && !(phase == InternalListener && !mtls)
      ensures log == old(log) || (phase == ConsumerGroup && !pending && log == old(log) + [DelConsumer(true)])
      ensures phase == ConsumerGroup && !err && !pending ==> log == old(log) + [DelConsumer(true)]
    {
      match phase {
        case SignalDrain =>
          draining, err := true, false;
        case DispatcherLoop =>
          stopped := true;
          err := WaitFor();
        case ConsumerGroup =>
          err := RemoveConsumer();
        case PrinterSockets =>
          told := true;
          Elapse();
          err := false;
        case PublicListener =>
          closed := closed + {PublicListener};
          Elapse();
          var tooLate: bool := *;
          err := faulty(PublicListener) || (expired && tooLate);
        case InternalListener =>
          err := false;
          if mtls {
            closed := closed + {InternalListener};
            Elapse();
            var tooLate: bool := *;
            err := faulty(InternalListener) || (expired && tooLate);
          }
      }
    }

    /** runShutdown: every step is attempted, in order, whichever fail; and if the waiting comes before the
        deleting, DELCONSUMER is only ever sent once the dispatcher loop has returned. */
    method RunShutdown(steps: seq<Phase>)
      requires WaitsFirst(steps) && log == []
      modifies this
      ensures Attempts(log) == steps
      ensures (SignalDrain in steps ==> draining) && (DispatcherLoop in steps ==> stopped)
      ensures PrinterSockets in steps ==> told
      ensures PublicListener in steps ==> PublicListener in closed
      ensures InternalListener in steps && mtls ==> InternalListener in closed
      ensures forall e: Event :: e in log && e.DelConsumer? ==> e.loopReturned
      ensures Attempted(ConsumerGroup, false) in log && !pending ==> DelConsumer(true) in log
      ensures forall e: Event :: e in log && e.Attempted? && e.failed ==> expired || faulty(e.phase)
    {
      for i := 0 to |steps|
        invariant Attempts(log) == steps[..i]
        invariant DispatcherLoop in steps[..i] ==> stopped && (returned || expired)
        invariant SignalDrain in steps[..i] ==> draining
        invariant PrinterSockets in steps[..i] ==> told
        invariant PublicListener in steps[..i] ==> PublicListener in closed
        invariant InternalListener in steps[..i] && mtls ==> InternalListener in closed
        invariant forall e: Event :: e in log && e.DelConsumer? ==> e.loopReturned
        invariant Attempted(ConsumerGroup, false) in log && !pending ==> DelConsumer(true) in log
        invariant forall e: Event :: e in log && e.Attempted? && e.failed ==> expired || faulty(e.phase)
      {
        Attempt(steps[i]);
        assert steps[..i + 1] == steps[..i] + [steps[i]];
      }
      assert steps[..|steps|] == steps;
    }

    /** One step, and the line its result is logged on. */
    method Attempt(phase: Phase)
      requires phase == ConsumerGroup ==> returned || expired
      modifies `draining, `stopped, `returned, `expired, `told, `closed, `log
      ensures (old(returned) ==> returned) && (old(expired) ==> expired)
      ensures draining == (old(draining) || phase == SignalDrain)
      ensures stopped == (old(stopped) || phase == DispatcherLoop)
      ensures phase == DispatcherLoop ==> returned || expired
      ensures told == (old(told) || phase == PrinterSockets)
      ensures closed == old(closed)
                        + if phase == PublicListener || (phase == InternalListener && mtls) then {phase} else {}
      ensures Attempts(log) == Attempts(old(log)) + [phase]
      ensures forall e: Event :: e in log ==> e in old(log) || e == DelConsumer(true) || e.Attempted?
      ensures forall e: Event :: e in log && e !in old(log) && e.Attempted? && e.failed ==> expired || faulty(e.phase)
      ensures forall e: Event :: e in old(log) ==> e in log
      ensures Attempted(ConsumerGroup, false) in log && Attempted(ConsumerGroup, false) !in old(log) && !pending ==>
                DelConsumer(true) in log
    {
      var before := log;
      var err := Run(phase);
      LogGrows(before, log, Attempted(phase, err));
      log := log + [Attempted(phase, err)];
    }

    /** main.go's sequence is such an order: the six steps, each attempted once whichever fail, with their
        effects, and none fails but by its own commands or the deadline. */
    method GracefulShutdown()
      requires log == []
      modifies this
      ensures Attempts(log) ==
                [SignalDrain, DispatcherLoop, ConsumerGroup, PrinterSockets, PublicListener, InternalListener]
      ensures draining && stopped && told && PublicListener in closed && (mtls ==> InternalListener in closed)
      ensures forall e: Event :: e in log && e.DelConsumer? ==> e.loopReturned
      ensures Attempted(ConsumerGroup, false) in log && !pending ==> DelConsumer(true) in log
      ensures forall e: Event :: e in log && e.Attempted? && e.failed ==> expired || faulty(e.phase)
    {
      var steps := [SignalDrain, DispatcherLoop, ConsumerGroup, PrinterSockets, PublicListener, InternalListener];
      assert steps[1] == DispatcherLoop && steps[..2][1] == DispatcherLoop;
      assert steps[0] == SignalDrain && steps[3] == PrinterSockets && steps[4] == PublicListener
          && steps[5] == InternalListener;
      RunShutdown(steps);
    }
  }

  /** The attempts are what the log says was attempted, in order, and nothing else. */
  lemma AttemptsMeans(log: seq<Event>, phase: Phase, failed: bool, returned: bool)
    ensures Attempts([]) == []
    ensures Attempts(log + [Attempted(phase, failed)]) == Attempts(log) + [phase]
    ensures Attempts(log + [DelConsumer(returned)]) == Attempts(log)
  {
    assert (log + [Attempted(phase, failed)])[..|log|] == log && (log + [DelConsumer(returned)])[..|log|] == log;
  }

  lemma LogGrows(before: seq<Event>, log: seq<Event>, e: Event)
    requires (log == before || log == before + [DelConsumer(true)]) && e.Attempted?
    ensures Attempts(log + [e]) == Attempts(before) + [e.phase]
    ensures forall x: Event :: x in log + [e] <==> x in before || x == e || (log != before && x == DelConsumer(true))
  {
    AttemptsMeans(log, e.phase, e.failed, true);
    AttemptsMeans(before, e.phase, e.failed, true);
    assert log != before ==> log[|before|] == DelConsumer(true);
  }
}
