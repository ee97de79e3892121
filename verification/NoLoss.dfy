/** When the queue keeps its jobs. As the code stands a queued job can be lost: XAUTOCLAIM takes over
    messages that sit in a slow node's batch for a minute, and then the settled ACK of one owner can
    meet the revert of the other. This module proves that nothing else loses a job, next to the deletions
    of DeleteRule; ReclaimRule, that this does. */
module NoLoss {
  import opened Wrappers
  import opened JobRefs
  import opened StreamGroup
  import opened Protocol
  import opened DispatchSafety
  import opened QueueSafety
  import opened DeleteRule

  /** The messages a dispatcher may still act on: its batch, without a message it has just finished. */
  function Held(pc: Pc, batch: seq<EntryId>): seq<EntryId> {
    if pc.Returned? && batch != [] then batch[1..] else batch
  }

  ghost predicate Holds(s: State, n: NodeId, e: EntryId) {
    e in Held(PcIn(s.pcs, Dispatcher(n)), BatchIn(s.batches, n))
  }

  /** Nobody will make j claimable again: it is past the queue and no claim of it is open. */
  ghost predicate Closed(s: State, j: JobId) {
    j in s.rows && !Claimable(s.rows[j]) && forall a: Actor :: !HasToken(PcIn(s.pcs, a), j)
  }

  /** No other dispatcher still has one of these messages to handle, unless its job is closed anyway. */
  ghost predicate OwnersAreDone(s: State, n: NodeId, claimed: seq<EntryId>) {
    forall m: NodeId, e: EntryId, j: JobId {:trigger Holds(s, m, e), IsEntry(s.group.log, e, j)} ::
      m != n && e in claimed && Holds(s, m, e) && IsEntry(s.group.log, e, j) ==> Closed(s, j)
  }

  /** The reclaim rule: reclaim only what the previous owner will not handle again. */
  ghost predicate ReclaimsSafely(s: State, step: Step) {
    match step
    case OnNode(n, Reclaim(claimed, seen)) => seen ==> OwnersAreDone(s, n, claimed)
    case _ => true
  }

  /** The discipline under which no job is lost: the reclaim rule, and the delete rule of DeleteRule. */
  ghost predicate Disciplined(s: State, step: Step) {
    ReclaimsSafely(s, step) && DeletesSafely(s, step)
  }

  ghost predicate DisciplinedRun(s: State, run: seq<Step>)
    requires ValidRun(s, run)
    decreases |run|
  {
    run == [] || (Disciplined(s, run[0]) && DisciplinedRun(Apply(s, run[0]), run[1..]))
  }

  /** A command of an actor without a token of j gains none while the row of j is past the queue, and leaves
      that row alone. */
  lemma AttemptGainsNoToken(s: State, a: Actor, at: Attempt, j: JobId)
    requires AttemptEnabled(s, a, at) && j in s.rows && !Claimable(s.rows[j]) && !HasToken(PcIn(s.pcs, a), j)
    requires at.Commit? ==> RowClaimable(s, PcIn(s.pcs, a).job)
    ensures RowIn(AttemptRows(s, a, at), j) == RowIn(s.rows, j) && !HasToken(AttemptPc(s, a, at), j)
  {
  }

  lemma AttemptKeepsClosed(s: State, a: Actor, at: Attempt, j: JobId)
    requires ClaimInv(s) && AttemptEnabled(s, a, at) && Closed(s, j)
    ensures Closed(ApplyAttempt(s, a, at), j)
  {
    var s' := ApplyAttempt(s, a, at);
    assert !HasToken(PcIn(s.pcs, a), j);
    assert at.Commit? ==> InClaimTx(PcIn(s.pcs, a), PcIn(s.pcs, a).job);
    AttemptGainsNoToken(s, a, at, j);
    assert forall b: Actor :: PcIn(s'.pcs, b) == if b == a then AttemptPc(s, a, at) else PcIn(s.pcs, b);
  }

  lemma NodeKeepsClosed(s: State, n: NodeId, ns: NodeStep, j: JobId)
    requires NodeEnabled(s, n, ns) && Closed(s, j)
    ensures Closed(ApplyNode(s, n, ns), j)
  {
    var s' := ApplyNode(s, n, ns);
    assert forall a: Actor :: PcIn(s'.pcs, a) == if a == Dispatcher(n) then NodePc(s, n, ns) else PcIn(s.pcs, a);
    assert NodePc(s, n, ns) == PcIn(s.pcs, Dispatcher(n)) || !HasToken(NodePc(s, n, ns), j);
  }

  /** A frame's status is past the queue. */
  lemma LinkKeepsClosed(s: State, k: JobId, ls: LinkStep, j: JobId)
    requires LinkInv(s) && Enabled(s, OnLink(k, ls)) && Closed(s, j)
    ensures Closed(Apply(s, OnLink(k, ls)), j)
  {
    assert LinkFits(RowIn(s.rows, k), CountIn(s.published, k), LinkIn(s.links, k));
    assert Apply(s, OnLink(k, ls)).pcs == s.pcs;
  }

  /** A job is closed as long as no row goes, and no actor gains a token of it. */
  lemma ClosedFrame(s: State, s': State, j: JobId)
    requires Closed(s, j) && RowIn(s'.rows, j) == RowIn(s.rows, j)
    requires forall a: Actor :: HasToken(PcIn(s'.pcs, a), j) ==> HasToken(PcIn(s.pcs, a), j)
    ensures Closed(s', j)
  {
  }

  /** Past the queue is for good: the jobs table only lets the holder of an open claim make a row claimable. */
  lemma ClosedStays(s: State, step: Step, j: JobId)
    requires RunInv(s) && Enabled(s, step) && Closed(s, j)
    ensures Closed(Apply(s, step), j)
  {
    match step
    case Attempts(a, at) => AttemptKeepsClosed(s, a, at, j);
    case OnNode(n, ns) => NodeKeepsClosed(s, n, ns, j);
    case OnLink(k, ls) => LinkKeepsClosed(s, k, ls, j);
    case _ => ClosedFrame(s, Apply(s, step), j);
  }

  ghost predicate HeldOnce(s: State) {
    forall m: NodeId, n: NodeId, e: EntryId, j: JobId
      {:trigger Holds(s, m, e), Holds(s, n, e), IsEntry(s.group.log, e, j)} ::
      m != n && Holds(s, m, e) && Holds(s, n, e) && IsEntry(s.group.log, e, j) ==> Closed(s, j)
  }

  /** What is acknowledged, or about to be, is closed. */
  ghost predicate AcksFit(s: State) {
    && (forall e: EntryId, j: JobId {:trigger IsEntry(s.group.log, e, j)} ::
          e in s.group.acked && IsEntry(s.group.log, e, j) ==> Closed(s, j))
    && (forall n: NodeId :: Acks(PcIn(s.pcs, Dispatcher(n))) && PcIn(s.pcs, Dispatcher(n)).Returned? ==>
          Closed(s, PcIn(s.pcs, Dispatcher(n)).job))
  }

  ghost predicate KeepsJobs(s: State) {
    RunInv(s) && HeldOnce(s) && DeletesFit(s) && AcksFit(s)
  }

  // ----- the discipline keeps the jobs -----

  lemma NodeHeldGrows(s: State, n: NodeId, ns: NodeStep, e: EntryId)
    requires NodeEnabled(s, n, ns) && DispatcherFits(s.group.log, BatchIn(s.batches, n), PcIn(s.pcs, Dispatcher(n)))
    requires e in Held(NodePc(s, n, ns), NodeBatch(s, n, ns))
    ensures Holds(s, n, e) || ((ns.Read? || ns.Reclaim?) && e in NodeBatch(s, n, ns))
  {
  }

  lemma AttemptHeldGrows(s: State, a: Actor, at: Attempt, m: NodeId, e: EntryId)
    requires AttemptEnabled(s, a, at) && Holds(ApplyAttempt(s, a, at), m, e)
    ensures Holds(s, m, e)
  {
  }

  /** Only XREADGROUP and XAUTOCLAIM give a dispatcher messages it did not hold. */
  lemma HeldGrows(s: State, step: Step, m: NodeId, e: EntryId)
    requires RunInv(s) && Enabled(s, step) && Holds(Apply(s, step), m, e)
    ensures Holds(s, m, e)
         || (step.OnNode? && step.node == m && (step.ns.Read? || step.ns.Reclaim?) && e in NodeBatch(s, m, step.ns))
  {
    match step
    case OnNode(n, ns) =>
      if n == m {
        assert DispatcherFits(s.group.log, BatchIn(s.batches, m), PcIn(s.pcs, Dispatcher(m)));
        NodeHeldGrows(s, n, ns, e);
      }
    case Attempts(a, at) => AttemptHeldGrows(s, a, at, m, e);
    case _ =>
  }

  lemma StepKeepsHeldOnce(s: State, step: Step)
    requires RunInv(s) && HeldOnce(s) && Enabled(s, step) && ReclaimsSafely(s, step)
    ensures HeldOnce(Apply(s, step))
  {
    var s' := Apply(s, step);
    forall m: NodeId, n: NodeId, e: EntryId, j: JobId
      | m != n && Holds(s', m, e) && Holds(s', n, e) && IsEntry(s'.group.log, e, j)
      ensures Closed(s', j)
    {
      HeldGrows(s, step, m, e);
      HeldGrows(s, step, n, e);
      HeldIsRead(s, if Holds(s, m, e) then m else n, e);
      EntryStays(s, step, e, j);
      if !Holds(s, m, e) {
        NewlyHeldIsClosed(s, step, m, n, e, j);
      } else if !Holds(s, n, e) {
        NewlyHeldIsClosed(s, step, n, m, e, j);
      }
      ClosedStays(s, step, j);
    }
  }

  lemma HeldIsRead(s: State, m: NodeId, e: EntryId)
    requires RunInv(s)
    ensures Holds(s, m, e) ==> e < s.group.cursor
  {
    assert Holds(s, m, e) ==> e in BatchIn(s.batches, m);
  }

  lemma EntryStays(s: State, step: Step, e: EntryId, j: JobId)
    requires RunInv(s) && Enabled(s, step) && e < |s.group.log|
    ensures IsEntry(Apply(s, step).group.log, e, j) <==> IsEntry(s.group.log, e, j)
  {
    match step
    case OnNode(n, ns) => NodeKeepsGroup(s, n, ns);
    case _ =>
  }

  /** XREADGROUP hands out messages nobody held; XAUTOCLAIM is where the discipline comes in. */
  lemma NewlyHeldIsClosed(s: State, step: Step, n: NodeId, m: NodeId, e: EntryId, j: JobId)
    requires RunInv(s) && Enabled(s, step) && ReclaimsSafely(s, step)
    requires step.OnNode? && step.node == n && (step.ns.Read? || step.ns.Reclaim?) && e in NodeBatch(s, n, step.ns)
    requires m != n && Holds(s, m, e) && IsEntry(s.group.log, e, j)
    ensures Closed(s, j)
  {
    HeldIsRead(s, m, e);
  }

  /** While every message is held once, nobody else is busy with the job a dispatcher is busy with. */
  lemma OneOwner(s: State, a: Actor, n: NodeId, j: JobId)
    requires RunInv(s) && HeldOnce(s) && !Closed(s, j)
    requires JobInHand(PcIn(s.pcs, Dispatcher(n))) == Some(j) && !PcIn(s.pcs, Dispatcher(n)).Returned?
    requires JobInHand(PcIn(s.pcs, a)) == Some(j) && !PcIn(s.pcs, a).Returned?
    ensures a == Dispatcher(n)
  {
    assert a.Handler? ==> OwnJob(PcIn(s.pcs, Handler(a.job)), a.job);
    BusyHolds(s, n, j);
    BusyHolds(s, if a.Dispatcher? then a.node else n, j);
  }

  /** A dispatcher busy with a job holds its entry. */
  lemma BusyHolds(s: State, k: NodeId, j: JobId)
    requires RunInv(s)
    ensures JobInHand(PcIn(s.pcs, Dispatcher(k))) == Some(j) && !PcIn(s.pcs, Dispatcher(k)).Returned? ==>
              (exists f: EntryId :: Holds(s, k, f) && IsEntry(s.group.log, f, j))
  {
    var batch := BatchIn(s.batches, k);
    assert DispatcherFits(s.group.log, batch, PcIn(s.pcs, Dispatcher(k)));
    if JobInHand(PcIn(s.pcs, Dispatcher(k))) == Some(j) && !PcIn(s.pcs, Dispatcher(k)).Returned? {
      assert Holds(s, k, batch[0]) && IsEntry(s.group.log, batch[0], j);
    }
  }

  /** When LockJobForDispatch finds nothing to lock for a dispatcher, the job is closed: an open claim
      could only be held by another owner of the same entry, and there is none. */
  lemma SettledMeansClosed(s: State, n: NodeId)
    requires RunInv(s) && HeldOnce(s) && AttemptEnabled(s, Dispatcher(n), Lock)
    requires !RowClaimable(s, PcIn(s.pcs, Dispatcher(n)).job)
    ensures Closed(s, PcIn(s.pcs, Dispatcher(n)).job)
  {
    var j := PcIn(s.pcs, Dispatcher(n)).job;
    assert DispatcherFits(s.group.log, BatchIn(s.batches, n), PcIn(s.pcs, Dispatcher(n)));
    forall a: Actor ensures !HasToken(PcIn(s.pcs, a), j) {
      if HasToken(PcIn(s.pcs, a), j) && !Closed(s, j) {
        OneOwner(s, a, n, j);
      }
    }
  }

  lemma AttemptKeepsAcks(s: State, a: Actor, at: Attempt)
    requires KeepsJobs(s) && AttemptEnabled(s, a, at)
    ensures AcksFit(ApplyAttempt(s, a, at))
  {
    var s' := ApplyAttempt(s, a, at);
    forall e: EntryId, j: JobId | e in s'.group.acked && IsEntry(s'.group.log, e, j) ensures Closed(s', j) {
      assert IsEntry(s.group.log, e, j);
      AttemptKeepsClosed(s, a, at, j);
    }
    forall n: NodeId | Acks(PcIn(s'.pcs, Dispatcher(n))) && PcIn(s'.pcs, Dispatcher(n)).Returned?
      ensures Closed(s', PcIn(s'.pcs, Dispatcher(n)).job)
    {
      var pc := PcIn(s.pcs, Dispatcher(n));
      if a == Dispatcher(n) {
        if at.Lock? {
          SettledMeansClosed(s, n);
          AttemptKeepsClosed(s, a, at, pc.job);
        } else {
          PublishCloses(s, a, at);
        }
      } else {
        AttemptKeepsClosed(s, a, at, pc.job);
      }
    }
  }

  /** The publish spends the job's only claim on a row in dispatching. */
  lemma PublishCloses(s: State, a: Actor, at: Attempt)
    requires RunInv(s) && AttemptEnabled(s, a, at) && Publishing(at)
    ensures Closed(ApplyAttempt(s, a, at), PcIn(s.pcs, a).job)
  {
    var s', j := ApplyAttempt(s, a, at), PcIn(s.pcs, a).job;
    assert HasToken(PcIn(s.pcs, a), j);
    assert forall b: Actor :: b != a ==> PcIn(s'.pcs, b) == PcIn(s.pcs, b);
  }

  lemma NodeKeepsAcks(s: State, n: NodeId, ns: NodeStep)
    requires KeepsJobs(s) && NodeEnabled(s, n, ns)
    ensures AcksFit(ApplyNode(s, n, ns))
  {
    var s' := ApplyNode(s, n, ns);
    NodeKeepsGroup(s, n, ns);
    var pc, batch := PcIn(s.pcs, Dispatcher(n)), BatchIn(s.batches, n);
    assert DispatcherFits(s.group.log, batch, pc);
    forall e: EntryId, j: JobId | e in s'.group.acked && IsEntry(s'.group.log, e, j) ensures Closed(s', j) {
      if e !in s.group.acked {
        assert ns.Ack? && e == batch[0] && IsEntry(s.group.log, e, pc.job);
      } else {
        assert IsEntry(s.group.log, e, j);
      }
      NodeKeepsClosed(s, n, ns, j);
    }
    forall m: NodeId | Acks(PcIn(s'.pcs, Dispatcher(m))) && PcIn(s'.pcs, Dispatcher(m)).Returned?
      ensures Closed(s', PcIn(s'.pcs, Dispatcher(m)).job)
    {
      assert PcIn(s'.pcs, Dispatcher(m)) == PcIn(s.pcs, Dispatcher(m));
      NodeKeepsClosed(s, n, ns, PcIn(s.pcs, Dispatcher(m)).job);
    }
  }

  lemma OtherStepKeepsAcks(s: State, step: Step)
    requires KeepsJobs(s) && Enabled(s, step) && !step.Attempts? && !step.OnNode?
    ensures AcksFit(Apply(s, step))
  {
    var s' := Apply(s, step);
    forall e: EntryId, j: JobId | e in s'.group.acked && IsEntry(s'.group.log, e, j) ensures Closed(s', j) {
      assert e < |s.group.log| && IsEntry(s.group.log, e, j);
      ClosedStays(s, step, j);
    }
    forall n: NodeId | Acks(PcIn(s'.pcs, Dispatcher(n))) && PcIn(s'.pcs, Dispatcher(n)).Returned?
      ensures Closed(s', PcIn(s'.pcs, Dispatcher(n)).job)
    {
      assert PcIn(s'.pcs, Dispatcher(n)) == PcIn(s.pcs, Dispatcher(n));
      ClosedStays(s, step, PcIn(s.pcs, Dispatcher(n)).job);
    }
  }

  lemma StepKeepsJobs(s: State, step: Step)
    requires KeepsJobs(s) && Enabled(s, step) && Disciplined(s, step)
    ensures KeepsJobs(Apply(s, step))
  {
    StepKeepsRunInv(s, step);
    StepKeepsHeldOnce(s, step);
    StepKeepsDeletes(s, step);
    match step
    case Attempts(a, at) => AttemptKeepsAcks(s, a, at);
    case OnNode(n, ns) => NodeKeepsAcks(s, n, ns);
    case _ => OtherStepKeepsAcks(s, step);
  }

  lemma {:induction false} RunKeepsJobs(s: State, run: seq<Step>)
    requires KeepsJobs(s) && ValidRun(s, run) && DisciplinedRun(s, run)
    ensures KeepsJobs(Exec(s, run))
    decreases |run|
  {
    if run != [] {
      StepKeepsJobs(s, run[0]);
      RunKeepsJobs(Apply(s, run[0]), run[1..]);
    }
  }

  /** The states disciplined runs lead to. */
  ghost predicate Kept(s: State) {
    exists run: seq<Step> :: KeptBy(run, s)
  }

  ghost predicate KeptBy(run: seq<Step>, s: State) {
    ValidRun(Init, run) && DisciplinedRun(Init, run) && Exec(Init, run) == s
  }

  lemma InitKeepsJobs()
    ensures KeepsJobs(Init)
  {
    InitInv();
    InitDeletes();
  }

  lemma KeptInv(s: State)
    requires Kept(s)
    ensures KeepsJobs(s) && Reachable(s)
  {
    var run: seq<Step> :| KeptBy(run, s);
    InitKeepsJobs();
    RunKeepsJobs(Init, run);
  }

  lemma {:induction false} DisciplinedAppend(s: State, run: seq<Step>, step: Step)
    requires ValidRun(s, run + [step]) && ValidRun(s, run)
    requires DisciplinedRun(s, run) && Enabled(Exec(s, run), step) && Disciplined(Exec(s, run), step)
    ensures DisciplinedRun(s, run + [step])
    decreases |run|
  {
    if run == [] {
      assert run + [step] == [step] && [step][1..] == [];
    } else {
      assert (run + [step])[0] == run[0] && (run + [step])[1..] == run[1..] + [step];
      DisciplinedAppend(Apply(s, run[0]), run[1..], step);
    }
  }

  lemma KeptStep(s: State, step: Step)
    requires Kept(s) && Enabled(s, step) && Disciplined(s, step)
    ensures Kept(Apply(s, step))
  {
    var run: seq<Step> :| KeptBy(run, s);
    assert [step][1..] == [] && ValidRun(Apply(s, step), []);
    RunAppend(Init, run, [step]);
    DisciplinedAppend(Init, run, step);
    assert KeptBy(run + [step], Apply(s, step));
  }

  /** The queue still holds e for j. */
  ghost predicate Waiting(s: State, e: EntryId, j: JobId) {
    && IsEntry(s.group.log, e, j)
    && (e >= s.group.cursor || Pending(s.group, e))
    && e !in s.group.acked && e !in s.group.discarded
  }

  /** No queued job is lost: in every disciplined run, once POST /jobs answered "queued" and as long as
      the row still waits, the job's one entry is unread or in somebody's PEL. It was neither
      acknowledged nor dropped with a consumer. */
  lemma NoQueuedJobIsLost(s: State, j: JobId)
    requires Kept(s) && PcIn(s.pcs, Handler(j)) == Replied(SaidQueued) && RowClaimable(s, j)
    ensures exists e: EntryId :: Waiting(s, e, j)
  {
    KeptInv(s);
    assert HandlerFits(s, j, PcIn(s.pcs, Handler(j)));
    var e: EntryId :| IsEntry(s.group.log, e, j);
    assert e in s.group.acked ==> Closed(s, j);
    assert Waiting(s, e, j);
  }
}
