/** What happens to stream entries over every run: they are conserved, no job ever has two, and each
    one names the job its holder is working on. */
module QueueSafety {
  import opened Wrappers
  import opened JobRefs
  import opened DispatchLimits
  import opened StreamGroup
  import opened Protocol
  import opened DispatchSafety

  /** The job a stored message names, if it decodes. */
  function JobOf(v: Values): Option<JobId> {
    match JobRefFromValues(v)
    case Success(f) => Some(f.jobId)
    case Failure(_) => None
  }

  ghost predicate IsEntry(log: seq<Values>, e: EntryId, j: JobId) {
    e < |log| && JobOf(log[e]) == Some(j)
  }

  /** The job an actor has in hand. */
  function JobInHand(pc: Pc): Option<JobId> {
    if pc.Idle? || pc.Garbled? || pc.Replied? then None else Some(pc.job)
  }

  ghost predicate QueueInv(s: State) {
    && Conserved(s.group)
    && RefsFit(s)
    && EntriesFit(s)
    && DispatchersFit(s)
    && HandlersFit(s)
  }

  ghost predicate RefsFit(s: State) {
    && s.refs.Keys == s.rows.Keys
    && (forall j: JobId {:trigger s.refs[j]} :: j in s.refs ==> s.refs[j].jobId == j)
  }

  /** Every entry was queued by TryDispatch for a known job, one entry a job, before its handler answered. */
  ghost predicate EntriesFit(s: State) {
    && (forall e: EntryId :: e < |s.group.log| ==> JobOf(s.group.log[e]).Some?)
    && (forall e: EntryId, j: JobId :: IsEntry(s.group.log, e, j) ==> j in s.rows && PcIn(s.pcs, Handler(j)).Replied?)
    && (forall e: EntryId, f: EntryId, j: JobId :: IsEntry(s.group.log, e, j) && IsEntry(s.group.log, f, j) ==> e == f)
  }

  /** A dispatcher works on the job of the first message of its batch, and holds only entries handed out. */
  ghost predicate DispatchersFit(s: State) {
    && (forall n: NodeId, e: EntryId :: e in BatchIn(s.batches, n) ==> e < s.group.cursor)
    && (forall n: NodeId :: DispatcherFits(s.group.log, BatchIn(s.batches, n), PcIn(s.pcs, Dispatcher(n))))
  }

  ghost predicate DispatcherFits(log: seq<Values>, batch: seq<EntryId>, pc: Pc) {
    && !pc.Garbled? && !pc.Replied?
    && (JobInHand(pc).Some? ==> batch != [] && IsEntry(log, batch[0], JobInHand(pc).value))
  }

  /** Until it has claimed, a request handler finds its row as it left it; a queued answer has an entry. */
  ghost predicate HandlersFit(s: State) {
    forall j: JobId :: HandlerFits(s, j, PcIn(s.pcs, Handler(j)))
  }

  ghost predicate HandlerFits(s: State, j: JobId, pc: Pc) {
    && (JobInHand(pc).Some? ==> j in s.rows)
    && (pc.Trying? || pc.Claiming? ==> RowClaimable(s, j))
    && pc != Returned(j, Settled)
    && (pc == Replied(SaidQueued) ==> exists e: EntryId :: IsEntry(s.group.log, e, j))
  }

  ghost predicate RunInv(s: State) {
    SafetyInv(s) && QueueInv(s)
  }

  /** A job that has no stream entry yet belongs to its request handler alone. */
  lemma HandlerWorksAlone(s: State, a: Actor, j: JobId)
    requires RunInv(s) && JobInHand(PcIn(s.pcs, Handler(j))).Some? && a != Handler(j)
    ensures JobInHand(PcIn(s.pcs, a)) != Some(j)
  {
    match a
    case Handler(k) => assert OwnJob(PcIn(s.pcs, Handler(k)), k);
    case Dispatcher(n) => assert DispatcherFits(s.group.log, BatchIn(s.batches, n), PcIn(s.pcs, Dispatcher(n)));
  }

  /** Dispatchers do not notice what leaves their batches, their places and the entries alone. */
  lemma DispatchersStay(s: State, s': State)
    requires DispatchersFit(s)
    requires s'.batches == s.batches && s'.group.cursor == s.group.cursor
    requires forall e: EntryId, j: JobId :: IsEntry(s.group.log, e, j) ==> IsEntry(s'.group.log, e, j)
    requires forall n: NodeId :: PcIn(s'.pcs, Dispatcher(n)) == PcIn(s.pcs, Dispatcher(n))
    ensures DispatchersFit(s')
  {
    forall n: NodeId ensures DispatcherFits(s'.group.log, BatchIn(s'.batches, n), PcIn(s'.pcs, Dispatcher(n))) {
      assert DispatcherFits(s.group.log, BatchIn(s.batches, n), PcIn(s.pcs, Dispatcher(n)));
    }
  }

  /** Nor do the entries, as long as no row goes and no handler takes its answer back. */
  lemma EntriesStay(s: State, s': State)
    requires EntriesFit(s) && s'.group.log == s.group.log
    requires forall j: JobId :: j in s.rows ==> j in s'.rows
    requires forall j: JobId :: PcIn(s.pcs, Handler(j)).Replied? ==> PcIn(s'.pcs, Handler(j)).Replied?
    ensures EntriesFit(s')
  {
  }

  // ----- commands of attemptDispatch -----

  /** Everything about j is as before: its row and its handler, up to commands of the handler itself. */
  lemma OtherHandlerFits(s: State, s': State, j: JobId)
    requires HandlerFits(s, j, PcIn(s.pcs, Handler(j)))
    requires PcIn(s'.pcs, Handler(j)) == PcIn(s.pcs, Handler(j)) && s'.group.log == s.group.log
    requires j in s.rows ==> j in s'.rows
    requires JobInHand(PcIn(s.pcs, Handler(j))).Some? ==> RowIn(s'.rows, j) == RowIn(s.rows, j)
    ensures HandlerFits(s', j, PcIn(s'.pcs, Handler(j)))
  {
  }

  lemma OwnCommandFits(s: State, s': State, j: JobId, at: Attempt)
    requires AttemptEnabled(s, Handler(j), at) && HandlerFits(s, j, PcIn(s.pcs, Handler(j)))
    requires OwnJob(PcIn(s.pcs, Handler(j)), j) && s'.rows == AttemptRows(s, Handler(j), at)
    ensures HandlerFits(s', j, AttemptPc(s, Handler(j), at))
  {
  }

  lemma OthersRow(s: State, a: Actor, at: Attempt, j: JobId)
    requires AttemptEnabled(s, a, at)
    ensures j in s.rows ==> j in AttemptRows(s, a, at)
    ensures JobInHand(PcIn(s.pcs, a)) != Some(j) ==> RowIn(AttemptRows(s, a, at), j) == RowIn(s.rows, j)
  {
  }

  lemma AttemptKeepsHandlers(s: State, a: Actor, at: Attempt)
    requires RunInv(s) && AttemptEnabled(s, a, at)
    ensures HandlersFit(ApplyAttempt(s, a, at))
  {
    var s' := ApplyAttempt(s, a, at);
    forall j: JobId ensures HandlerFits(s', j, PcIn(s'.pcs, Handler(j))) {
      assert HandlerFits(s, j, PcIn(s.pcs, Handler(j)));
      if a == Handler(j) {
        assert OwnJob(PcIn(s.pcs, Handler(j)), j);
        OwnCommandFits(s, s', j, at);
      } else {
        OthersRow(s, a, at, j);
        if JobInHand(PcIn(s.pcs, Handler(j))).Some? {
          HandlerWorksAlone(s, a, j);
        }
        OtherHandlerFits(s, s', j);
      }
    }
  }

  lemma AttemptFits(s: State, n: NodeId, at: Attempt)
    requires AttemptEnabled(s, Dispatcher(n), at)
    requires DispatcherFits(s.group.log, BatchIn(s.batches, n), PcIn(s.pcs, Dispatcher(n)))
    ensures DispatcherFits(s.group.log, if at.Crash? then [] else BatchIn(s.batches, n),
                           AttemptPc(s, Dispatcher(n), at))
  {
  }

  lemma AttemptKeepsDispatchers(s: State, a: Actor, at: Attempt)
    requires DispatchersFit(s) && AttemptEnabled(s, a, at)
    ensures DispatchersFit(ApplyAttempt(s, a, at))
  {
    var s' := ApplyAttempt(s, a, at);
    forall n: NodeId
      ensures DispatcherFits(s'.group.log, BatchIn(s'.batches, n), PcIn(s'.pcs, Dispatcher(n)))
    {
      assert DispatcherFits(s.group.log, BatchIn(s.batches, n), PcIn(s.pcs, Dispatcher(n)));
      if a == Dispatcher(n) {
        AttemptFits(s, n, at);
      }
    }
    assert forall n: NodeId, e: EntryId :: e in BatchIn(s'.batches, n) ==> e in BatchIn(s.batches, n);
  }

  lemma AttemptKeepsRows(s: State, a: Actor, at: Attempt)
    requires ClaimInv(s) && AttemptEnabled(s, a, at)
    ensures AttemptRows(s, a, at).Keys == s.rows.Keys
  {
    assert at.Commit? ==> InClaimTx(PcIn(s.pcs, a), PcIn(s.pcs, a).job);
  }

  lemma AttemptKeepsQueue(s: State, a: Actor, at: Attempt)
    requires RunInv(s) && AttemptEnabled(s, a, at)
    ensures QueueInv(ApplyAttempt(s, a, at))
  {
    var s' := ApplyAttempt(s, a, at);
    AttemptKeepsHandlers(s, a, at);
    AttemptKeepsDispatchers(s, a, at);
    AttemptKeepsRows(s, a, at);
    AttemptKeepsAnswers(s, a, at);
    EntriesStay(s, s');
  }

  lemma AttemptKeepsAnswers(s: State, a: Actor, at: Attempt)
    requires AttemptEnabled(s, a, at)
    ensures forall j: JobId :: PcIn(s.pcs, Handler(j)).Replied? ==>
              PcIn(ApplyAttempt(s, a, at).pcs, Handler(j)).Replied?
  {
  }

  // ----- commands of the dispatcher loop -----

  lemma NodeKeepsGroup(s: State, n: NodeId, ns: NodeStep)
    requires Conserved(s.group) && NodeEnabled(s, n, ns)
    ensures Conserved(NodeGroup(s, n, ns)) && NodeGroup(s, n, ns).log == s.group.log
    ensures s.group.cursor <= NodeGroup(s, n, ns).cursor
  {
    match ns
    case Read(_) => ReadConserves(s.group, n, READ_COUNT);
    case Reclaim(claimed, _) => ClaimConserves(s.group, n, set e: EntryId | e in claimed);
    case Ack(applied) => if applied { AckConserves(s.group, BatchIn(s.batches, n)[0]); }
    case DelConsumer => DelConsumerConserves(s.group, n);
    case _ =>
  }

  lemma NodeKeepsBatch(s: State, n: NodeId, ns: NodeStep, e: EntryId)
    requires QueueInv(s) && NodeEnabled(s, n, ns)
    requires e in NodeBatch(s, n, ns)
    ensures e < NodeGroup(s, n, ns).cursor
    ensures e in BatchIn(s.batches, n) || ns.Read? || (ns.Reclaim? && e in ns.claimed)
  {
    NodeKeepsGroup(s, n, ns);
    if ns.Reclaim? {
      assert Pending(s.group, e);
      var m: NodeId :| e in Owned(s.group, m);
    } else if !ns.Read? {
      assert e in BatchIn(s.batches, n);
    }
  }

  lemma NodeKeepsDispatchers(s: State, n: NodeId, ns: NodeStep)
    requires QueueInv(s) && NodeEnabled(s, n, ns)
    ensures DispatchersFit(ApplyNode(s, n, ns))
  {
    var s' := ApplyNode(s, n, ns);
    NodeKeepsGroup(s, n, ns);
    forall m: NodeId, e: EntryId | e in BatchIn(s'.batches, m) ensures e < s'.group.cursor {
      if m == n {
        NodeKeepsBatch(s, n, ns, e);
      } else {
        assert e in BatchIn(s.batches, m);
      }
    }
    forall m: NodeId ensures DispatcherFits(s'.group.log, BatchIn(s'.batches, m), PcIn(s'.pcs, Dispatcher(m))) {
      assert DispatcherFits(s.group.log, BatchIn(s.batches, m), PcIn(s.pcs, Dispatcher(m)));
      if m == n {
        if ns.Take? {
          assert BatchIn(s.batches, n)[0] in BatchIn(s.batches, n);
        }
        NodeFits(s, n, ns);
      }
    }
  }

  lemma NodeFits(s: State, n: NodeId, ns: NodeStep)
    requires NodeEnabled(s, n, ns)
    requires DispatcherFits(s.group.log, BatchIn(s.batches, n), PcIn(s.pcs, Dispatcher(n)))
    requires ns.Take? ==> BatchIn(s.batches, n)[0] < |s.group.log| && JobOf(s.group.log[BatchIn(s.batches, n)[0]]).Some?
    ensures DispatcherFits(s.group.log, NodeBatch(s, n, ns), NodePc(s, n, ns))
  {
  }

  lemma NodeKeepsQueue(s: State, n: NodeId, ns: NodeStep)
    requires RunInv(s) && NodeEnabled(s, n, ns)
    ensures QueueInv(ApplyNode(s, n, ns))
  {
    var s' := ApplyNode(s, n, ns);
    NodeKeepsGroup(s, n, ns);
    NodeKeepsDispatchers(s, n, ns);
    NodeIsNoHandler(s, n, ns);
    NodeKeepsHandlers(s, s');
    EntriesStay(s, s');
  }

  lemma NodeIsNoHandler(s: State, n: NodeId, ns: NodeStep)
    requires NodeEnabled(s, n, ns)
    ensures forall j: JobId :: PcIn(ApplyNode(s, n, ns).pcs, Handler(j)) == PcIn(s.pcs, Handler(j))
  {
  }

  lemma NodeKeepsHandlers(s: State, s': State)
    requires HandlersFit(s)
    requires s'.rows == s.rows && s'.group.log == s.group.log
    requires forall j: JobId :: PcIn(s'.pcs, Handler(j)) == PcIn(s.pcs, Handler(j))
    ensures HandlersFit(s')
  {
    forall j: JobId ensures HandlerFits(s', j, PcIn(s'.pcs, Handler(j))) {
      assert HandlerFits(s, j, PcIn(s.pcs, Handler(j)));
    }
  }

  // ----- CreateJob and TryDispatch -----

  lemma EntryAppended(log: seq<Values>, v: Values, e: EntryId, j: JobId)
    ensures IsEntry(log + [v], e, j) <==> IsEntry(log, e, j) || (e == |log| && JobOf(v) == Some(j))
  {
  }

  /** A job is queued once: its handler queues it before answering, and nobody else ever does. */
  lemma OneMoreEntryFits(s: State, s': State, j: JobId, v: Values)
    requires EntriesFit(s) && j in s.rows && JobOf(v) == Some(j) && s'.rows == s.rows
    requires s'.group.log == s.group.log + [v] && !PcIn(s.pcs, Handler(j)).Replied?
    requires forall k: JobId :: k == j || PcIn(s.pcs, Handler(k)).Replied? ==> PcIn(s'.pcs, Handler(k)).Replied?
    ensures EntriesFit(s')
  {
    assert forall e: EntryId :: !IsEntry(s.group.log, e, j);
    forall e: EntryId, k: JobId
      ensures IsEntry(s'.group.log, e, k) <==> IsEntry(s.group.log, e, k) || (e == |s.group.log| && k == j)
    {
      EntryAppended(s.group.log, v, e, k);
    }
  }

  lemma EnqueuedIsEntry(s: State, j: JobId, ok: bool)
    requires RefsFit(s) && Enabled(s, Enqueue(j, true, ok))
    ensures j in s.rows && JobOf(ToXAddValues(s.refs[j])) == Some(j)
    ensures IsEntry(Apply(s, Enqueue(j, true, ok)).group.log, |s.group.log|, j)
  {
    JobRefRoundTrip(s.refs[j]);
    EntryAppended(s.group.log, ToXAddValues(s.refs[j]), |s.group.log|, j);
  }

  lemma EnqueueKeepsHandlers(s: State, s': State, j: JobId)
    requires HandlersFit(s) && s'.rows == s.rows
    requires forall e: EntryId, k: JobId :: IsEntry(s.group.log, e, k) ==> IsEntry(s'.group.log, e, k)
    requires forall k: JobId :: k != j ==> PcIn(s'.pcs, Handler(k)) == PcIn(s.pcs, Handler(k))
    requires PcIn(s'.pcs, Handler(j)).Replied?
    requires PcIn(s'.pcs, Handler(j)) == Replied(SaidQueued) ==> exists e: EntryId :: IsEntry(s'.group.log, e, j)
    ensures HandlersFit(s')
  {
    forall k: JobId ensures HandlerFits(s', k, PcIn(s'.pcs, Handler(k))) {
      assert HandlerFits(s, k, PcIn(s.pcs, Handler(k)));
      if k != j && PcIn(s'.pcs, Handler(k)) == Replied(SaidQueued) {
        var e: EntryId :| IsEntry(s.group.log, e, k);
        assert IsEntry(s'.group.log, e, k);
      }
    }
  }

  lemma EnqueueKeepsEntries(s: State, j: JobId, applied: bool, ok: bool)
    requires RunInv(s) && Enabled(s, Enqueue(j, applied, ok))
    ensures var s' := Apply(s, Enqueue(j, applied, ok));
      && Conserved(s'.group) && EntriesFit(s')
      && (forall e: EntryId, k: JobId :: IsEntry(s.group.log, e, k) ==> IsEntry(s'.group.log, e, k))
  {
    var s' := Apply(s, Enqueue(j, applied, ok));
    if applied {
      forall e: EntryId, k: JobId | IsEntry(s.group.log, e, k) ensures IsEntry(s'.group.log, e, k) {
        EntryAppended(s.group.log, ToXAddValues(s.refs[j]), e, k);
      }
      EnqueuedIsEntry(s, j, ok);
      AddConserves(s.group, ToXAddValues(s.refs[j]));
      OneMoreEntryFits(s, s', j, ToXAddValues(s.refs[j]));
    } else {
      EntriesStay(s, s');
    }
  }

  lemma EnqueueKeepsQueue(s: State, j: JobId, applied: bool, ok: bool)
    requires RunInv(s) && Enabled(s, Enqueue(j, applied, ok))
    ensures QueueInv(Apply(s, Enqueue(j, applied, ok)))
  {
    var s' := Apply(s, Enqueue(j, applied, ok));
    EnqueueKeepsEntries(s, j, applied, ok);
    if ok {
      EnqueuedIsEntry(s, j, ok);
    }
    EnqueueKeepsHandlers(s, s', j);
    DispatchersStay(s, s');
  }

  lemma SubmitKeepsQueue(s: State, ref: JobRef)
    requires RunInv(s) && Enabled(s, Submit(ref))
    ensures QueueInv(Apply(s, Submit(ref)))
  {
    var s' := Apply(s, Submit(ref));
    forall j: JobId ensures HandlerFits(s', j, PcIn(s'.pcs, Handler(j))) {
      assert HandlerFits(s, j, PcIn(s.pcs, Handler(j)));
    }
    DispatchersStay(s, s');
  }

  lemma AnswersKeepsQueue(s: State, j: JobId)
    requires RunInv(s) && Enabled(s, Answers(j))
    ensures QueueInv(Apply(s, Answers(j)))
  {
    var s' := Apply(s, Answers(j));
    forall k: JobId ensures HandlerFits(s', k, PcIn(s'.pcs, Handler(k))) {
      assert HandlerFits(s, k, PcIn(s.pcs, Handler(k)));
    }
    DispatchersStay(s, s');
  }

  // ----- frames -----

  lemma LinkKeepsQueue(s: State, j: JobId, ls: LinkStep)
    requires RunInv(s) && Enabled(s, OnLink(j, ls))
    ensures QueueInv(Apply(s, OnLink(j, ls)))
  {
    var s' := Apply(s, OnLink(j, ls));
    assert s'.rows.Keys == s.rows.Keys;
    forall k: JobId ensures HandlerFits(s', k, PcIn(s'.pcs, Handler(k))) {
      assert HandlerFits(s, k, PcIn(s.pcs, Handler(k)));
      assert LinkFits(RowIn(s.rows, k), CountIn(s.published, k), LinkIn(s.links, k));
    }
    DispatchersStay(s, s');
  }

  // ----- whole runs -----

  lemma StepKeepsRunInv(s: State, step: Step)
    requires RunInv(s) && Enabled(s, step)
    ensures RunInv(Apply(s, step))
  {
    StepKeepsClaims(s, step);
    StepKeepsLinks(s, step);
    match step
    case Submit(ref) => SubmitKeepsQueue(s, ref);
    case Enqueue(j, applied, ok) => EnqueueKeepsQueue(s, j, applied, ok);
    case Answers(j) => AnswersKeepsQueue(s, j);
    case Attempts(a, at) => AttemptKeepsQueue(s, a, at);
    case OnNode(n, ns) => NodeKeepsQueue(s, n, ns);
    case OnLink(j, ls) => LinkKeepsQueue(s, j, ls);
  }

  lemma {:induction false} RunKeepsRunInv(s: State, run: seq<Step>)
    requires RunInv(s) && ValidRun(s, run)
    ensures RunInv(Exec(s, run))
    decreases |run|
  {
    if run != [] {
      StepKeepsRunInv(s, run[0]);
      RunKeepsRunInv(Apply(s, run[0]), run[1..]);
    }
  }

  lemma InitInv()
    ensures RunInv(Init)
  {
    EmptyInv(Init);
  }

  lemma EmptyInv(s: State)
    requires s.rows == map[] && s.refs == map[] && s.locks == map[] && s.group == EmptyGroup
    requires s.pcs == map[] && s.batches == map[] && s.published == map[] && s.links == map[]
    ensures RunInv(s)
  {
  }

  lemma ReachableInv(s: State)
    requires Reachable(s)
    ensures RunInv(s)
  {
    var run: seq<Step> :| ValidRun(Init, run) && Exec(Init, run) == s;
    InitInv();
    RunKeepsRunInv(Init, run);
  }

  // ----- main results -----

  /** Every entry ever XADDed lies in exactly one place: unread, the PEL of one consumer, acknowledged,
      or dropped with a deleted consumer; and nothing else lies anywhere. */
  lemma EntriesAreConserved(s: State, e: EntryId)
    requires Reachable(s)
    ensures e < |s.group.log| <==>
              || s.group.cursor <= e < |s.group.log|
              || (exists n: NodeId :: e in Owned(s.group, n))
              || e in s.group.acked || e in s.group.discarded
    ensures forall n: NodeId, m: NodeId :: e in Owned(s.group, n) && e in Owned(s.group, m) ==> n == m
    ensures (exists n: NodeId :: e in Owned(s.group, n)) ==>
              e < s.group.cursor && e !in s.group.acked && e !in s.group.discarded
    ensures e in s.group.acked ==> e < s.group.cursor && e !in s.group.discarded
    ensures e in s.group.discarded ==> e < s.group.cursor
  {
    ReachableInv(s);
    if e < s.group.cursor && Pending(s.group, e) {
      var n: NodeId :| e in Owned(s.group, n);
    }
  }

  /** However often it is retried, a job has at most one stream entry, and its message always decodes to
      the job it was queued for: handle never takes the malformed-message branch. */
  lemma OneEntryAJob(s: State, e: EntryId, f: EntryId, n: NodeId)
    requires Reachable(s) && e < |s.group.log| && f < |s.group.log|
    ensures JobOf(s.group.log[e]).Some? && JobOf(s.group.log[e]).value in s.rows
    ensures JobOf(s.group.log[e]) == JobOf(s.group.log[f]) ==> e == f
    ensures !PcIn(s.pcs, Dispatcher(n)).Garbled?
  {
    ReachableInv(s);
    assert IsEntry(s.group.log, e, JobOf(s.group.log[e]).value);
    assert IsEntry(s.group.log, f, JobOf(s.group.log[f]).value);
    assert DispatcherFits(s.group.log, BatchIn(s.batches, n), PcIn(s.pcs, Dispatcher(n)));
  }

  /** A freshly submitted job is never settled under TryDispatch: the branch the source calls defensive is dead. */
  lemma FreshJobNeverSettles(s: State, j: JobId)
    requires Reachable(s)
    ensures PcIn(s.pcs, Handler(j)) != Returned(j, Settled)
  {
    ReachableInv(s);
    assert HandlerFits(s, j, PcIn(s.pcs, Handler(j)));
  }
}
