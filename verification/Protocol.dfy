/** The dispatch protocol as a state machine: any number of cloud nodes, the Postgres jobs table, the
    Redis stream and its consumer group, and the printer link. A step is one Postgres or Redis command
    (or one frame), together with the local move its reply causes; steps of different actors interleave
    freely and any actor may crash between two of its steps. Every command may also fail. */
module Protocol {
  import opened Wrappers
  import opened JobRefs
  import opened StreamGroup
  import opened DispatchLimits

  type JobId = string

  datatype Status = Submitted | Queued | Dispatching | Printing | Delivered | Failed

  /** The statuses LockJobForDispatch selects. */
  predicate Claimable(st: Status) {
    st.Submitted? || st.Queued?
  }

  predicate Terminal(st: Status) {
    st.Delivered? || st.Failed?
  }

  function Rank(st: Status): nat {
    match st
    case Submitted => 0
    case Queued => 0
    case Dispatching => 1
    case Printing => 2
    case Delivered => 3
    case Failed => 3
  }

  /** What attemptDispatch returns; Errored stands for a non-nil error. */
  datatype Outcome = Blocked | Settled | Dispatched | Errored

  /** What POST /jobs answers: status "queued", status "dispatching", or a 5xx. */
  datatype Answer = SaidQueued | SaidDispatching | SaidFailed

  /** A goroutine that runs attemptDispatch: the request handler that submitted a job, or the one
      dispatcher loop of a node. */
  datatype Actor = Handler(job: JobId) | Dispatcher(node: NodeId)

  /** Where an actor stands inside CreateJob / handle / attemptDispatch / claimJob / revert. */
  datatype Pc =
    | Idle                               // a dispatcher between two messages
    | Trying(job: JobId)                 // before the eligibility check
    | Claiming(job: JobId)               // eligible; before LockJobForDispatch
    | Locked(job: JobId)                 // row lock held, before MarkJobDispatching
    | Marked(job: JobId)                 // row lock held, before COMMIT
    | Claimed(job: JobId)                // committed, before PUBLISH
    | Reverting(job: JobId, failing: bool) // before RequeueJob, on the way to an error or to blocked
    | Returned(job: JobId, out: Outcome) // attemptDispatch has returned
    | Garbled                            // handle could not decode the message
    | Replied(answer: Answer)            // the request handler has answered

  /** The printer's goroutine for one dispatch frame, and the hub's handling of one status frame. */
  datatype Worker = NotStarted | Started | Working | Done
  datatype HubStage = HubIdle | Applied(st: Status) | Audited(st: Status) | Relayed(st: Status)

  datatype Link = Link(
    inflight: nat,          // dispatch frames between PUBLISH and the printer
    worker: Worker,
    wire: seq<Status>,      // status frames on the socket, in order
    hub: HubStage,
    audits: seq<Status>)    // the job_<status> audit rows written

  const NoLink := Link(0, NotStarted, [], HubIdle, [])

  datatype State = State(
    rows: map<JobId, Status>,
    refs: map<JobId, JobRef>,
    locks: map<JobId, Actor>,          // row locks held by open claim transactions
    group: Group,
    pcs: map<Actor, Pc>,
    batches: map<NodeId, seq<EntryId>>, // messages a dispatcher still has to handle; the first is in hand
    retired: set<NodeId>,              // nodes whose dispatcher loop never reads again
    probed: set<NodeId>,               // consumers XPENDING has shown empty to someone about to delete them
    published: map<JobId, nat>,        // publishes that reached a receiver
    links: map<JobId, Link>,
    deleted: set<string>)              // blobs removed from object storage

  const Init := State(map[], map[], map[], EmptyGroup, map[], map[], {}, {}, map[], map[], {})

  function PcIn(pcs: map<Actor, Pc>, a: Actor): Pc {
    if a in pcs then pcs[a] else Idle
  }

  function BatchIn(batches: map<NodeId, seq<EntryId>>, n: NodeId): seq<EntryId> {
    if n in batches then batches[n] else []
  }

  function CountIn(counts: map<JobId, nat>, j: JobId): nat {
    if j in counts then counts[j] else 0
  }

  function LinkIn(links: map<JobId, Link>, j: JobId): Link {
    if j in links then links[j] else NoLink
  }

  function RowIn(rows: map<JobId, Status>, j: JobId): Option<Status> {
    if j in rows then Some(rows[j]) else None
  }

  predicate RowClaimable(s: State, j: JobId) {
    j in s.rows && Claimable(s.rows[j])
  }

  /** A claim token: the actor committed the claim of j and has neither published nor reverted it. */
  predicate HasToken(pc: Pc, j: JobId) {
    (pc.Claimed? || pc.Reverting?) && pc.job == j
  }

  /** The actor is inside the claim transaction of j and holds the row lock. */
  predicate InClaimTx(pc: Pc, j: JobId) {
    (pc.Locked? || pc.Marked?) && pc.job == j
  }

  // ----- steps -----

  /** The commands of attemptDispatch, claimJob and revert, issued by whichever actor runs them. In
      Requeue, applied says whether RequeueJob took effect and ok whether its caller saw it succeed. */
  datatype Attempt =
    | Check(eligible: bool)
    | Lock
    | Mark
    | Commit
    | GiveUp
    | Publish(receivers: nat)
    | PublishFails
    | Requeue(applied: bool, ok: bool)
    | Crash

  /** The commands of the dispatcher loop, and of deleting a consumer. In Read and Reclaim, seen says
      whether the reply reached the node. */
  datatype NodeStep =
    | Read(seen: bool)
    | Reclaim(claimed: seq<EntryId>, seen: bool)
    | Take
    | Ack(applied: bool)
    | Leave
    | StopBatch
    | Retire
    | Probe
    | DelConsumer

  /** Frames between the cloud and the printer, and the hub's handling of the status frames. */
  datatype LinkStep =
    | Receive
    | LoseDispatch
    | SendPrinting(sent: bool)
    | SendEnd(st: Status, sent: bool)
    | PrinterDies
    | HubApply(applied: bool, ok: bool)
    | HubAudit(ok: bool)
    | HubRelay(sent: bool)
    | HubFinish(removed: bool)
    | HubDies
    | WireLost

  datatype Step =
    | Submit(ref: JobRef)                            // CreateJob: InsertJob
    | Enqueue(job: JobId, applied: bool, ok: bool)   // TryDispatch: XADD after a blocked attempt
    | Answers(job: JobId)                            // TryDispatch: any other outcome
    | Attempts(actor: Actor, at: Attempt)
    | OnNode(node: NodeId, ns: NodeStep)
    | OnLink(job: JobId, ls: LinkStep)

  // ----- attemptDispatch -----

  predicate AttemptEnabled(s: State, a: Actor, at: Attempt) {
    var pc := PcIn(s.pcs, a);
    match at
    case Check(_) => pc.Trying?
    case Lock => pc.Claiming?
    case Mark => pc.Locked?
    case Commit => pc.Marked?
    case GiveUp => pc.Claiming? || pc.Locked? || pc.Marked?
    case Publish(_) => pc.Claimed?
    case PublishFails => pc.Claimed?
    case Requeue(applied, ok) => pc.Reverting? && pc.job !in s.locks && (ok ==> applied)
    case Crash => a in s.pcs
  }

  /** Where the reply sends the actor. LockJobForDispatch selects FOR UPDATE NOWAIT among the claimable
      rows: no row is claimSettled, a row locked by someone else (55P03) is claimLost. */
  function AttemptPc(s: State, a: Actor, at: Attempt): Pc
    requires AttemptEnabled(s, a, at)
  {
    var pc := PcIn(s.pcs, a);
    match at
    case Check(eligible) => if eligible then Claiming(pc.job) else Returned(pc.job, Blocked)
    case Lock =>
      if !RowClaimable(s, pc.job) then Returned(pc.job, Settled)
      else if pc.job in s.locks then Returned(pc.job, Blocked)
      else Locked(pc.job)
    case Mark => Marked(pc.job)
    case Commit => Claimed(pc.job)
    case GiveUp => Returned(pc.job, Errored)
    case Publish(receivers) => if receivers == 0 then Reverting(pc.job, false) else Returned(pc.job, Dispatched)
    case PublishFails => Reverting(pc.job, true)
    case Requeue(applied, ok) => Returned(pc.job, if ok && !pc.failing then Blocked else Errored)
    case Crash => if a.Handler? then Replied(SaidFailed) else Idle
  }

  function Unlocked(locks: map<JobId, Actor>, a: Actor): map<JobId, Actor> {
    map j: JobId | j in locks && locks[j] != a :: locks[j]
  }

  function AttemptRows(s: State, a: Actor, at: Attempt): map<JobId, Status>
    requires AttemptEnabled(s, a, at)
  {
    var pc := PcIn(s.pcs, a);
    if at.Commit? then s.rows[pc.job := Dispatching]
    else if at.Requeue? && at.applied && pc.job in s.rows then s.rows[pc.job := Queued]
    else s.rows
  }

  /** Every end of the claim transaction releases the row lock. */
  function AttemptLocks(s: State, a: Actor, at: Attempt): map<JobId, Actor>
    requires AttemptEnabled(s, a, at)
  {
    if at.Lock? && AttemptPc(s, a, at).Locked? then s.locks[PcIn(s.pcs, a).job := a]
    else if at.Commit? || at.GiveUp? || at.Crash? then Unlocked(s.locks, a)
    else s.locks
  }

  predicate Publishing(at: Attempt) {
    at.Publish? && at.receivers > 0
  }

  function ApplyAttempt(s: State, a: Actor, at: Attempt): State
    requires AttemptEnabled(s, a, at)
  {
    var pc := PcIn(s.pcs, a);
    s.(pcs := s.pcs[a := AttemptPc(s, a, at)],
       rows := AttemptRows(s, a, at),
       locks := AttemptLocks(s, a, at),
       batches := if at.Crash? && a.Dispatcher? then s.batches[a.node := []] else s.batches,
       published := if Publishing(at) then s.published[pc.job := CountIn(s.published, pc.job) + 1] else s.published,
       links := if Publishing(at) then s.links[pc.job := Sent(LinkIn(s.links, pc.job))] else s.links)
  }

  function Sent(l: Link): Link {
    l.(inflight := l.inflight + 1)
  }

  // ----- the dispatcher loop -----

  /** A live dispatcher loop between two batches, about to issue XREADGROUP or XAUTOCLAIM. */
  predicate Ready(s: State, n: NodeId) {
    PcIn(s.pcs, Dispatcher(n)).Idle? && BatchIn(s.batches, n) == [] && n !in s.retired
  }

  /** handle acknowledges a message that is undecodable, dispatched or settled. */
  predicate Acks(pc: Pc) {
    pc.Garbled? || (pc.Returned? && (pc.out.Settled? || pc.out.Dispatched?))
  }

  predicate NodeEnabled(s: State, n: NodeId, ns: NodeStep) {
    var pc := PcIn(s.pcs, Dispatcher(n));
    match ns
    case Read(_) => Ready(s, n)
    case Reclaim(claimed, _) =>
      && Ready(s, n)
      && |claimed| <= READ_COUNT
      && (forall i :: 0 <= i < |claimed| ==> Pending(s.group, claimed[i]))
      && (forall i, k :: 0 <= i < k < |claimed| ==> claimed[i] != claimed[k])
    case Take => pc.Idle? && BatchIn(s.batches, n) != []
    case Ack(_) => BatchIn(s.batches, n) != [] && Acks(pc)
    case Leave => BatchIn(s.batches, n) != [] && pc.Returned? && !Acks(pc)
    case StopBatch => pc.Idle?
    case Retire => pc.Idle? && BatchIn(s.batches, n) == []
    case Probe => Owned(s.group, n) == {}
    case DelConsumer => n in s.probed
  }

  /** handle decodes the stored message first; what does not decode is acknowledged away. */
  function TakenPc(s: State, e: EntryId): Pc {
    if e < |s.group.log| && JobRefFromValues(s.group.log[e]).Success? then
      Trying(JobRefFromValues(s.group.log[e]).value.jobId)
    else
      Garbled
  }

  function NodeGroup(s: State, n: NodeId, ns: NodeStep): Group
    requires NodeEnabled(s, n, ns)
  {
    match ns
    case Read(_) => XReadGroup(s.group, n, READ_COUNT)
    case Reclaim(claimed, _) => XAutoClaim(s.group, n, set e: EntryId | e in claimed)
    case Ack(applied) => if applied then XAck(s.group, BatchIn(s.batches, n)[0]) else s.group
    case DelConsumer => XGroupDelConsumer(s.group, n)
    case _ => s.group
  }

  function NodeBatch(s: State, n: NodeId, ns: NodeStep): seq<EntryId>
    requires NodeEnabled(s, n, ns)
  {
    match ns
    case Read(seen) => if seen then Ids(s.group.cursor, ReadCount(s.group, READ_COUNT)) else []
    case Reclaim(claimed, seen) => if seen then claimed else []
    case Ack(_) => BatchIn(s.batches, n)[1..]
    case Leave => BatchIn(s.batches, n)[1..]
    case StopBatch => []
    case _ => BatchIn(s.batches, n)
  }

  function NodePc(s: State, n: NodeId, ns: NodeStep): Pc
    requires NodeEnabled(s, n, ns)
  {
    match ns
    case Take => TakenPc(s, BatchIn(s.batches, n)[0])
    case Ack(_) => Idle
    case Leave => Idle
    case _ => PcIn(s.pcs, Dispatcher(n))
  }

  function ApplyNode(s: State, n: NodeId, ns: NodeStep): State
    requires NodeEnabled(s, n, ns)
  {
    s.(group := NodeGroup(s, n, ns),
       batches := s.batches[n := NodeBatch(s, n, ns)],
       pcs := s.pcs[Dispatcher(n) := NodePc(s, n, ns)],
       retired := if ns.Retire? then s.retired + {n} else s.retired,
       probed := if ns.Probe? then s.probed + {n} else s.probed)
  }

  // ----- the printer link, one job at a time -----

  predicate LinkEnabled(row: Option<Status>, l: Link, ls: LinkStep) {
    match ls
    case Receive => l.inflight > 0
    case LoseDispatch => l.inflight > 0
    case SendPrinting(_) => l.worker.Started?
    case SendEnd(st, _) => l.worker.Working? && Terminal(st)
    case PrinterDies => l.worker.Started? || l.worker.Working?
    case HubApply(applied, ok) => l.hub.HubIdle? && l.wire != [] && (ok ==> applied) && (applied ==> row.Some?)
    case HubAudit(_) => l.hub.Applied?
    case HubRelay(_) => l.hub.Audited?
    case HubFinish(_) => l.hub.Relayed?
    case HubDies => true
    case WireLost => true
  }

  function LinkNext(row: Option<Status>, l: Link, ls: LinkStep): Link
    requires LinkEnabled(row, l, ls)
  {
    match ls
    case Receive => l.(inflight := l.inflight - 1, worker := Started)
    case LoseDispatch => l.(inflight := l.inflight - 1)
    case SendPrinting(sent) => l.(worker := Working, wire := if sent then l.wire + [Printing] else l.wire)
    case SendEnd(st, sent) => l.(worker := Done, wire := if sent then l.wire + [st] else l.wire)
    case PrinterDies => l.(worker := Done)
    case HubApply(applied, ok) => l.(wire := l.wire[1..], hub := if ok then Applied(l.wire[0]) else HubIdle)
    case HubAudit(ok) => l.(hub := Audited(l.hub.st), audits := if ok then l.audits + [l.hub.st] else l.audits)
    case HubRelay(_) => l.(hub := Relayed(l.hub.st))
    case HubFinish(_) => l.(hub := HubIdle)
    case HubDies => l.(hub := HubIdle)
    case WireLost => l.(wire := [])
  }

  /** The row after the step: UpdateJobStatus writes the frame's status whatever the row says. */
  function RowNext(row: Option<Status>, l: Link, ls: LinkStep): Option<Status>
    requires LinkEnabled(row, l, ls)
  {
    if ls.HubApply? && ls.applied then Some(l.wire[0]) else row
  }

  function ApplyLink(s: State, j: JobId, ls: LinkStep): State
    requires LinkEnabled(RowIn(s.rows, j), LinkIn(s.links, j), ls)
  {
    var l := LinkIn(s.links, j);
    var row := RowNext(RowIn(s.rows, j), l, ls);
    s.(rows := if row.Some? then s.rows[j := row.value] else s.rows,
       links := s.links[j := LinkNext(RowIn(s.rows, j), l, ls)],
       deleted := if ls.HubFinish? && ls.removed && l.hub.st == Delivered && j in s.refs
                  then s.deleted + {s.refs[j].blobRef} else s.deleted)
  }

  // ----- all steps together -----

  predicate Enabled(s: State, step: Step) {
    match step
    case Submit(ref) => ref.jobId !in s.rows
    case Enqueue(j, applied, ok) =>
      PcIn(s.pcs, Handler(j)) == Returned(j, Blocked) && j in s.refs && (ok ==> applied)
    case Answers(j) => PcIn(s.pcs, Handler(j)).Returned? && PcIn(s.pcs, Handler(j)).out != Blocked
    case Attempts(a, at) => AttemptEnabled(s, a, at)
    case OnNode(n, ns) => NodeEnabled(s, n, ns)
    case OnLink(j, ls) =>
      LinkEnabled(RowIn(s.rows, j), LinkIn(s.links, j), ls) && (ls.HubApply? ==> j !in s.locks)
  }

  function Apply(s: State, step: Step): State
    requires Enabled(s, step)
  {
    match step
    case Submit(ref) =>
      s.(rows := s.rows[ref.jobId := Submitted], refs := s.refs[ref.jobId := ref],
         pcs := s.pcs[Handler(ref.jobId) := Trying(ref.jobId)])
    case Enqueue(j, applied, ok) =>
      s.(pcs := s.pcs[Handler(j) := Replied(if ok then SaidQueued else SaidFailed)],
         group := if applied then XAdd(s.group, ToXAddValues(s.refs[j])) else s.group)
    case Answers(j) =>
      s.(pcs := s.pcs[Handler(j) :=
           Replied(if PcIn(s.pcs, Handler(j)).out == Errored then SaidFailed else SaidDispatching)])
    case Attempts(a, at) => ApplyAttempt(s, a, at)
    case OnNode(n, ns) => ApplyNode(s, n, ns)
    case OnLink(j, ls) => ApplyLink(s, j, ls)
  }

  // ----- runs -----

  /** The steps can be taken one after another from s. */
  ghost predicate ValidRun(s: State, run: seq<Step>)
    decreases |run|
  {
    run == [] || (Enabled(s, run[0]) && ValidRun(Apply(s, run[0]), run[1..]))
  }

  ghost function Exec(s: State, run: seq<Step>): State
    requires ValidRun(s, run)
    decreases |run|
  {
    if run == [] then s else Exec(Apply(s, run[0]), run[1..])
  }

  ghost predicate Reachable(s: State) {
    exists run: seq<Step> :: ValidRun(Init, run) && Exec(Init, run) == s
  }

  lemma {:induction false} RunAppend(s: State, run: seq<Step>, more: seq<Step>)
    requires ValidRun(s, run)
    ensures ValidRun(s, run + more) <==> ValidRun(Exec(s, run), more)
    ensures ValidRun(s, run + more) ==> Exec(s, run + more) == Exec(Exec(s, run), more)
    decreases |run|
  {
    if run == [] {
      assert run + more == more;
    } else {
      assert (run + more)[0] == run[0] && (run + more)[1..] == run[1..] + more;
      RunAppend(Apply(s, run[0]), run[1..], more);
    }
  }

  lemma ExtendReachable(t: State, step: Step)
    requires Reachable(t) && Enabled(t, step)
    ensures Reachable(Apply(t, step))
  {
    var run: seq<Step> :| ValidRun(Init, run) && Exec(Init, run) == t;
    var t' := Apply(t, step);
    assert [step][1..] == [] && ValidRun(t', []) && Exec(t', []) == t';
    RunAppend(Init, run, [step]);
    assert ValidRun(Init, run + [step]) && Exec(Init, run + [step]) == t';
  }
}
