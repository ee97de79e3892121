/** The dispatch protocol on the clock (dispatch/dispatcher.go). A message is handled within handleTimeout of
    the moment its dispatcher turns to it, XAUTOCLAIM takes over what has been idle for claimMinIdle, a live
    loop touches Redis as often as LoopTiming proves, and the reaper deletes consumers that have been idle
    for reapMinIdle. Times are milliseconds. */
module TimedRuns {
  import opened Wrappers
  import opened JobRefs
  import opened DispatchLimits
  import opened StreamGroup
  import opened Protocol
  import opened DispatchSafety
  import opened QueueSafety
  import opened DeleteRule
  import opened NoLoss
  import LoopTiming

  datatype Clock = Clock(
    replyAt: nat,         // when the dispatcher got the reply it is working through
    done: nat,            // the messages of that reply it has finished
    since: nat,           // when it turned to the message it is at
    lastCall: nat)        // its last XREADGROUP or XAUTOCLAIM

  datatype Timed = Timed(
    s: State,
    now: nat,
    delivered: map<EntryId, nat>,      // when each entry was last handed to a consumer
    clocks: map<NodeId, Clock>,        // of the nodes whose consumers the group knows
    stale: set<NodeId>)                // consumers some XINFO CONSUMERS has shown idle for reapMinIdle

  /** A step of the protocol, or a look at one line of XINFO CONSUMERS that calls for reaping. */
  datatype Event = Does(step: Step) | FindsStale(n: NodeId)

  datatype Moment = Moment(at: nat, event: Event)

  const Start := Timed(Init, 0, map[], map[], {})

  /** Latency in a live loop besides its handles and its select, between two of its commands. */
  const OTHER_LATENCY: nat := 90_000

  /** Nothing overruns if the clock moves on to at: no message in hand, and no live loop's silence. A node
      that died reads no more, so it counts among the retired. */
  predicate MayPass(t: Timed, at: nat) {
    && t.now <= at
    && (forall n: NodeId :: n in t.clocks && BatchIn(t.s.batches, n) != [] ==> at <= t.clocks[n].since + HANDLE_TIMEOUT)
    && (forall n: NodeId :: n in t.clocks && n !in t.s.retired ==>
          at < t.clocks[n].lastCall + LoopTiming.MAX_SILENCE + OTHER_LATENCY)
  }

  predicate IdleFor(t: Timed, e: EntryId, at: nat) {
    e in t.delivered && t.delivered[e] + CLAIM_MIN_IDLE <= at
  }

  /** The event can happen at that time. Deletions start with an XPENDING on a consumer found stale, or on the
      own consumer once its loop has returned. */
  predicate Timely(t: Timed, m: Moment) {
    && MayPass(t, m.at)
    && match m.event
       case FindsStale(n) => n in t.clocks && t.clocks[n].lastCall + REAP_MIN_IDLE <= m.at
       case Does(step) =>
         && Enabled(t.s, step)
         && (Reclaims(step) ==> forall i :: 0 <= i < |step.ns.claimed| ==> IdleFor(t, step.ns.claimed[i], m.at))
         && (step.OnNode? && step.ns.Probe? ==> step.node in t.stale || step.node in t.s.retired)
  }

  predicate Reclaims(step: Step) {
    step.OnNode? && step.ns.Reclaim?
  }

  predicate Calls(step: Step) {
    step.OnNode? && (step.ns.Read? || step.ns.Reclaim?)
  }

  /** The entries a step hands to a consumer. */
  function HandedOut(s: State, step: Step): seq<EntryId> {
    if !Calls(step) then []
    else if step.ns.Read? then Ids(s.group.cursor, ReadCount(s.group, READ_COUNT))
    else step.ns.claimed
  }

  function DeliveredNext(t: Timed, at: nat, step: Step): map<EntryId, nat> {
    var handed := HandedOut(t.s, step);
    map e: EntryId | e in t.delivered.Keys + (set x: EntryId | x in handed) ::
      if e in handed then at else t.delivered[e]
  }

  function ClocksNext(t: Timed, at: nat, step: Step): map<NodeId, Clock> {
    if Calls(step) then t.clocks[step.node := Clock(at, 0, at, at)]
    else if step.OnNode? && (step.ns.Ack? || step.ns.Leave?) && step.node in t.clocks then
      var c := t.clocks[step.node];
      t.clocks[step.node := c.(done := c.done + 1, since := at)]
    else t.clocks
  }

  function Next(t: Timed, m: Moment): Timed
    requires Timely(t, m)
  {
    match m.event
    case FindsStale(n) => t.(now := m.at, stale := t.stale + {n})
    case Does(step) => Timed(Apply(t.s, step), m.at, DeliveredNext(t, m.at, step), ClocksNext(t, m.at, step), t.stale)
  }

  ghost predicate TimedRun(t: Timed, run: seq<Moment>)
    decreases |run|
  {
    run == [] || (Timely(t, run[0]) && TimedRun(Next(t, run[0]), run[1..]))
  }

  ghost function After(t: Timed, run: seq<Moment>): Timed
    requires TimedRun(t, run)
    decreases |run|
  {
    if run == [] then t else After(Next(t, run[0]), run[1..])
  }

  /** What a timed run does, without the clock. */
  function Steps(run: seq<Moment>): seq<Step> {
    if run == [] then []
    else (if run[0].event.Does? then [run[0].event.step] else []) + Steps(run[1..])
  }

  // ----- what every timed run keeps -----

  /** A dispatcher with messages to handle got them all in one reply, and has had no more time for those it
      finished than they are allowed. */
  predicate ClockFits(now: nat, delivered: map<EntryId, nat>, batch: seq<EntryId>, c: Clock) {
    && c.replyAt <= c.since <= now && c.since <= c.replyAt + c.done * HANDLE_TIMEOUT
    && forall i :: 0 <= i < |batch| ==> batch[i] in delivered && c.replyAt <= delivered[batch[i]]
  }

  ghost predicate ClocksFit(t: Timed) {
    forall n: NodeId :: BatchIn(t.s.batches, n) != [] ==>
      n in t.clocks && ClockFits(t.now, t.delivered, BatchIn(t.s.batches, n), t.clocks[n])
  }

  ghost predicate TimedInv(t: Timed) {
    ClocksFit(t) && t.stale <= t.s.retired
  }

  /** The batches after a step: emptied, shortened at the front, replaced by a reply, or as they were. */
  lemma BatchAfter(s: State, step: Step, n: NodeId)
    requires Enabled(s, step)
    ensures var b, b' := BatchIn(s.batches, n), BatchIn(Apply(s, step).batches, n);
      || b' == [] || b' == b
      || (step.OnNode? && step.node == n && (step.ns.Ack? || step.ns.Leave?) && b != [] && b' == b[1..])
      || (Calls(step) && step.node == n && b' == HandedOut(s, step))
    ensures step.OnNode? && step.node == n && (step.ns.Ack? || step.ns.Leave?) ==>
              BatchIn(s.batches, n) != [] && BatchIn(Apply(s, step).batches, n) == BatchIn(s.batches, n)[1..]
  {
    match step
    case Attempts(a, at) =>
    case OnNode(k, ns) =>
    case OnLink(k, ls) =>
    case _ =>
  }

  lemma StepKeepsClock(t: Timed, m: Moment, n: NodeId)
    requires ClocksFit(t) && Timely(t, m) && m.event.Does?
    ensures var t' := Next(t, m);
      BatchIn(t'.s.batches, n) != [] ==>
        n in t'.clocks && ClockFits(t'.now, t'.delivered, BatchIn(t'.s.batches, n), t'.clocks[n])
  {
    BatchAfter(t.s, m.event.step, n);
  }

  lemma RetiredStaysRetired(s: State, step: Step)
    requires Enabled(s, step)
    ensures s.retired <= Apply(s, step).retired
  {
  }

  /** A consumer found stale reads no more: a live loop is never silent for that long. */
  lemma StaleIsRetired(t: Timed, m: Moment)
    requires Timely(t, m) && m.event.FindsStale?
    ensures m.event.n in t.s.retired
  {
  }

  lemma MomentKeepsInv(t: Timed, m: Moment)
    requires TimedInv(t) && Timely(t, m)
    ensures TimedInv(Next(t, m))
  {
    match m.event
    case FindsStale(n) => StaleIsRetired(t, m);
    case Does(step) =>
      RetiredStaysRetired(t.s, step);
      forall n: NodeId | BatchIn(Next(t, m).s.batches, n) != []
        ensures n in Next(t, m).clocks
             && ClockFits(Next(t, m).now, Next(t, m).delivered, BatchIn(Next(t, m).s.batches, n), Next(t, m).clocks[n])
      {
        StepKeepsClock(t, m, n);
      }
  }

  lemma {:induction false} RunKeepsInv(t: Timed, run: seq<Moment>)
    requires TimedInv(t) && TimedRun(t, run)
    ensures TimedInv(After(t, run))
    decreases |run|
  {
    if run != [] {
      MomentKeepsInv(t, run[0]);
      RunKeepsInv(Next(t, run[0]), run[1..]);
    }
  }

  /** Without the clock a timed run is a run of the protocol. */
  lemma {:induction false} TimedRunsAreRuns(t: Timed, run: seq<Moment>)
    requires TimedRun(t, run)
    ensures ValidRun(t.s, Steps(run)) && Exec(t.s, Steps(run)) == After(t, run).s
    decreases |run|
  {
    if run != [] {
      TimedRunsAreRuns(Next(t, run[0]), run[1..]);
      var rest := Steps(run[1..]);
      match run[0].event
      case FindsStale(_) => assert Steps(run) == rest;
      case Does(step) => assert Steps(run) == [step] + rest && Steps(run)[0] == step && Steps(run)[1..] == rest;
    }
  }

  // ----- nothing is discarded -----

  /** The reaper's test, the loops' timing and the shutdown order amount to the delete rule. */
  lemma {:induction false} TimedRunsDeleteSafely(t: Timed, run: seq<Moment>)
    requires TimedInv(t) && TimedRun(t, run)
    ensures ValidRun(t.s, Steps(run)) && DeletesSafelyRun(t.s, Steps(run))
    decreases |run|
  {
    TimedRunsAreRuns(t, run);
    if run != [] {
      MomentKeepsInv(t, run[0]);
      TimedRunsDeleteSafely(Next(t, run[0]), run[1..]);
      var rest := Steps(run[1..]);
      match run[0].event
      case FindsStale(_) => assert Steps(run) == rest;
      case Does(step) => assert Steps(run) == [step] + rest && Steps(run)[0] == step && Steps(run)[1..] == rest;
    }
  }

  /** So in every timed run nothing is ever discarded, neither by RemoveConsumer nor by any node's reaper. */
  lemma TimedRunsDiscardNothing(run: seq<Moment>)
    requires TimedRun(Start, run)
    ensures After(Start, run).s.group.discarded == {}
  {
    TimedRunsDeleteSafely(Start, run);
    NoEntryIsDiscarded(Steps(run));
    TimedRunsAreRuns(Start, run);
  }

  // ----- when an overlap takes four messages -----

  lemma FourthMessage(t: Timed, m: Moment, owner: NodeId, e: EntryId)
    requires TimedInv(t) && Timely(t, m) && m.event.Does? && Reclaims(m.event.step)
    requires e in m.event.step.ns.claimed && Holds(t.s, owner, e)
    ensures owner in t.clocks && t.clocks[owner].done >= 3
  {
    var batch := BatchIn(t.s.batches, owner);
    assert e in batch;
    var i :| 0 <= i < |batch| && batch[i] == e;
    var k :| 0 <= k < |m.event.step.ns.claimed| && m.event.step.ns.claimed[k] == e;
    assert IdleFor(t, m.event.step.ns.claimed[k], m.at);
    var c := t.clocks[owner];
    assert c.replyAt + CLAIM_MIN_IDLE <= c.replyAt + c.done * HANDLE_TIMEOUT + HANDLE_TIMEOUT;
    assert HANDLE_TIMEOUT == 15_000 && CLAIM_MIN_IDLE == 60_000;
  }

  /** In every timed run, a reclaim can only take a message from a dispatcher that still has it to handle if
      that dispatcher has finished three messages of the same reply already: each takes 15 seconds at most,
      and the entry has been idle for 60. */
  lemma OverlapNeedsAFourthMessage(run: seq<Moment>, m: Moment, owner: NodeId, e: EntryId)
    requires TimedRun(Start, run) && Timely(After(Start, run), m)
    requires m.event.Does? && Reclaims(m.event.step) && e in m.event.step.ns.claimed
    requires Holds(After(Start, run).s, owner, e)
    ensures owner in After(Start, run).clocks && After(Start, run).clocks[owner].done >= 3
  {
    RunKeepsInv(Start, run);
    FourthMessage(After(Start, run), m, owner, e);
  }

  /** Every reply of the run hands out three messages at most. */
  ghost predicate SmallReplies(t: Timed, run: seq<Moment>)
    requires TimedRun(t, run)
    decreases |run|
  {
    run == [] || (SmallReply(t.s, run[0].event) && SmallReplies(Next(t, run[0]), run[1..]))
  }

  predicate SmallReply(s: State, event: Event) {
    event.Does? ==> |HandedOut(s, event.step)| <= 3
  }

  /** No dispatcher has a fourth message to handle. */
  ghost predicate ThreeAtMost(t: Timed) {
    forall n: NodeId :: BatchIn(t.s.batches, n) != [] ==>
      n in t.clocks && t.clocks[n].done + |BatchIn(t.s.batches, n)| <= 3
  }

  lemma MomentKeepsThree(t: Timed, m: Moment)
    requires TimedInv(t) && ThreeAtMost(t) && Timely(t, m) && SmallReply(t.s, m.event)
    ensures ThreeAtMost(Next(t, m))
  {
    if m.event.Does? {
      forall n: NodeId | BatchIn(Next(t, m).s.batches, n) != []
        ensures n in Next(t, m).clocks && Next(t, m).clocks[n].done + |BatchIn(Next(t, m).s.batches, n)| <= 3
      {
        BatchAfter(t.s, m.event.step, n);
      }
    }
  }

  /** Then no reclaim takes a message from under anybody. */
  lemma SmallRepliesReclaimSafely(t: Timed, m: Moment)
    requires TimedInv(t) && ThreeAtMost(t) && Timely(t, m) && m.event.Does?
    ensures ReclaimsSafely(t.s, m.event.step)
  {
    if Reclaims(m.event.step) {
      forall owner: NodeId, e: EntryId | e in m.event.step.ns.claimed ensures !Holds(t.s, owner, e) {
        if Holds(t.s, owner, e) {
          FourthMessage(t, m, owner, e);
        }
      }
    }
  }

  lemma {:induction false} SmallRepliesAreDisciplined(t: Timed, run: seq<Moment>)
    requires TimedInv(t) && ThreeAtMost(t) && TimedRun(t, run) && SmallReplies(t, run)
    ensures ValidRun(t.s, Steps(run)) && DisciplinedRun(t.s, Steps(run))
    decreases |run|
  {
    TimedRunsAreRuns(t, run);
    if run != [] {
      MomentKeepsInv(t, run[0]);
      MomentKeepsThree(t, run[0]);
      SmallRepliesAreDisciplined(Next(t, run[0]), run[1..]);
      var rest := Steps(run[1..]);
      match run[0].event
      case FindsStale(_) => assert Steps(run) == rest;
      case Does(step) =>
        SmallRepliesReclaimSafely(t, run[0]);
        assert Steps(run) == [step] + rest && Steps(run)[0] == step && Steps(run)[1..] == rest;
    }
  }

  /** With at most three messages in a reply no queued job would be lost, in any timed run: whatever was
      answered "queued" and is still waiting has its entry unread or pending. */
  lemma SmallRepliesLoseNothing(run: seq<Moment>, j: JobId)
    requires TimedRun(Start, run) && SmallReplies(Start, run)
    requires var s := After(Start, run).s; PcIn(s.pcs, Handler(j)) == Replied(SaidQueued) && RowClaimable(s, j)
    ensures exists e: EntryId :: Waiting(After(Start, run).s, e, j)
  {
    SmallRepliesAreDisciplined(Start, run);
    TimedRunsAreRuns(Start, run);
    assert KeptBy(Steps(run), After(Start, run).s);
    NoQueuedJobIsLost(After(Start, run).s, j);
  }
}
