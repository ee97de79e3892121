/** How often a live dispatcher loop touches Redis (dispatch/dispatcher.go). The reaper deletes consumers
    that have been idle for reapMinIdle, so the loop must never be silent for that long. */
module LoopTiming {
  import opened DispatchLimits

  /** The bound on the time between two group commands, other latency aside. */
  const MAX_SILENCE: nat := READ_COUNT * HANDLE_TIMEOUT + SWEEP_INTERVAL

  /** Consecutive group commands are at most 210 seconds apart, plus the other latency between them. */
  predicate Spaced(calls: seq<nat>, other: seq<nat>) {
    && |other| == |calls|
    && forall i :: 0 <= i < |calls| - 1 ==> calls[i] <= calls[i + 1] <= calls[i] + 210_000 + other[i]
  }

  /** What a turn of the loop does. */
  datatype Work = Drains | Reclaims | Reaps

  /** A drain at the start, then one for each printer that became available, and at each tick a sweep. */
  ghost function WorkOf(swept: seq<bool>): seq<Work> {
    if swept == [] then [Drains]
    else WorkOf(swept[..|swept| - 1]) + if swept[|swept| - 1] then [Reclaims, Drains, Reaps] else [Drains]
  }

  /** A turn at a tick reclaims, drains and reaps, any other turn only drains. */
  lemma WorkOfTurn(swept: seq<bool>)
    ensures WorkOf([]) == [Drains]
    ensures WorkOf(swept + [true]) == WorkOf(swept) + [Reclaims, Drains, Reaps]
    ensures WorkOf(swept + [false]) == WorkOf(swept) + [Drains]
  {
    assert (swept + [true])[..|swept|] == swept && (swept + [false])[..|swept|] == swept;
  }

  /** One dispatcher loop on the clock, in milliseconds. */
  class Loop {
    var now: nat
    var tickAt: nat           // when the sweep ticker's channel next has, or had, a tick to offer
    var calls: seq<nat>       // when XREADGROUP or XAUTOCLAIM was issued
    var other: seq<nat>       // latency after each of them that neither handle nor the select accounts for
    var did: seq<Work>
    ghost var handling: nat   // time inside handle since the last call
    ghost var waiting: nat    // time inside the select since the last call

    ghost predicate Valid()
      reads this
    {
      && Spaced(calls, other)
      && tickAt <= now + SWEEP_INTERVAL
      && (calls == [] || now == calls[|calls| - 1] + handling + waiting + other[|other| - 1])
      && handling <= READ_COUNT * HANDLE_TIMEOUT && waiting <= SWEEP_INTERVAL
    }

    constructor ()
      ensures Valid() && calls == [] && did == []
    {
      now, tickAt, calls, other, did, handling, waiting := 0, SWEEP_INTERVAL, [], [], [], 0, 0;
    }

    /** Everything else that takes time: the network, the scheduler, the reaper's own commands. */
    method Elapse()
      requires Valid() && calls != []
      modifies `now, `other
      ensures Valid() && calls == old(calls)
    {
      var d: nat :| true;
      now := now + d;
      other := other[|other| - 1 := other[|other| - 1] + d];
    }

    /** XREADGROUP or XAUTOCLAIM goes out. */
    method GroupCall()
      requires Valid()
      modifies `calls, `other, `handling, `waiting
      ensures Valid() && old(calls) < calls && handling == 0 && waiting == 0
    {
      calls, other, handling, waiting := calls + [now], other + [0], 0, 0;
    }

    /** The messages of one reply, one after another, each within handleTimeout. */
    method HandleBatch(n: nat)
      requires Valid() && calls != [] && handling == 0 && n <= READ_COUNT
      modifies `now, `other, `handling
      ensures Valid() && calls == old(calls)
    {
      for i := 0 to n
        invariant Valid() && calls == old(calls) && handling <= i * HANDLE_TIMEOUT
      {
        var d: nat :| true;
        if d <= HANDLE_TIMEOUT {
          now, handling := now + d, handling + d;
        }
        Elapse();
        var cancelled: bool := *;
        if cancelled {
          return;
        }
      }
    }

    /** drain: every round starts with a call, and its handles follow that call. */
    method Drain()
      requires Valid()
      modifies this
      ensures Valid() && old(calls) < calls && waiting == 0 && did == old(did) + [Drains]
    {
      did := did + [Drains];
      var rounds: nat :| true;                  // it returns early on an error or an empty reply
      var i := 0;
      while i == 0 || (i < rounds && i < MAX_DRAIN_BATCHES)
        invariant Valid() && (i == 0 || (old(calls) < calls && waiting == 0))
        invariant (i == 0 ==> calls == old(calls)) && did == old(did) + [Drains]
        decreases MAX_DRAIN_BATCHES + 1 - i
      {
        GroupCall();
        var replied: nat :| true;
        if replied <= READ_COUNT {
          HandleBatch(replied);
        }
        i := i + 1;
      }
    }

    /** reclaim: the same, for as many rounds as the scan takes. */
    method Reclaim()
      requires Valid()
      modifies this
      ensures Valid() && old(calls) < calls && waiting == 0 && did == old(did) + [Reclaims]
    {
      did := did + [Reclaims];
      var rounds: nat :| true;
      for i := 0 to rounds + 1
        invariant Valid() && did == old(did) + [Reclaims]
        invariant (i == 0 ==> calls == old(calls)) && (i > 0 ==> old(calls) < calls && waiting == 0)
      {
        GroupCall();
        var replied: nat :| true;
        if replied <= READ_COUNT {
          HandleBatch(replied);
        }
      }
    }

    /** The select: it ends with a printer becoming available, or with the ticker's tick at the latest.
        The channel holds one tick, so a tick that came while the loop was busy ends the wait at once. event is
        when the next printer becomes available. */
    method Select(event: nat) returns (swept: bool)
      requires Valid() && calls != [] && waiting == 0
      modifies `now, `tickAt, `waiting
      ensures Valid() && now >= old(now)
      ensures if old(now) <= event < old(tickAt) then !swept && now == event && tickAt == old(tickAt)
              else swept && now == (if old(tickAt) > old(now) then old(tickAt) else old(now)) < tickAt <= now + 60_000
    {
      swept := !(now <= event < tickAt);
      var until := if !swept then event else if tickAt > now then tickAt else now;
      waiting := until - now;
      now := until;
      if swept {
        tickAt := (now / SWEEP_INTERVAL + 1) * SWEEP_INTERVAL;
      }
    }

    /** ReapStaleConsumers: other commands, which do not touch this consumer. */
    method Reap()
      requires Valid() && calls != []
      modifies `now, `other, `did
      ensures Valid() && calls == old(calls) && did == old(did) + [Reaps]
    {
      did := did + [Reaps];
      Elapse();
    }

    /** Run, for any number of turns of its loop: from its first command on it is never silent for longer
        than ten handles and one sweep interval, other latency aside. Each turn is a drain, or at a tick, which
        comes every 60 seconds, a reclaim, a drain and a look for stale consumers. */
    method Run(turns: nat, events: nat -> nat) returns (swept: seq<bool>)
      requires Valid() && calls == [] && did == []
      modifies this
      ensures Valid() && calls != []
      ensures |swept| == turns && did == WorkOf(swept)
    {
      Drain();
      swept := [];
      for i := 0 to turns
        invariant Valid() && calls != [] && waiting == 0
        invariant |swept| == i && did == WorkOf(swept)
      {
        var tick := Select(events(i));
        if tick {
          Reclaim();
          Drain();
          Reap();
        } else {
          Drain();
        }
        WorkOfTurn(swept);
        swept := swept + [tick];
      }
    }
  }

  /** The idle time XINFO CONSUMERS shows at time t: since the last command issued by then. */
  function Idle(calls: seq<nat>, t: nat): nat
    requires calls != [] && calls[0] <= t
  {
    var last := calls[|calls| - 1];
    if last <= t || |calls| == 1 then t - (if last <= t then last else calls[0]) else Idle(calls[..|calls| - 1], t)
  }

  /** While a loop like that runs, with less than 90 seconds of other latency in any gap, no reaper ever
      finds its consumer stale: neither between two of its commands, nor up to its next one. */
  lemma {:induction false} LiveConsumersAreNeverStale(calls: seq<nat>, other: seq<nat>, t: nat)
    requires Spaced(calls, other) && calls != []
    requires forall i :: 0 <= i < |other| ==> other[i] < 90_000
    requires calls[0] <= t <= calls[|calls| - 1] + 210_000 + other[|other| - 1]
    ensures Idle(calls, t) < 300_000 == REAP_MIN_IDLE
  {
    var n := |calls| - 1;
    if calls[n] > t && n > 0 {
      LiveConsumersAreNeverStale(calls[..n], other[..n], t);
    }
  }
}
