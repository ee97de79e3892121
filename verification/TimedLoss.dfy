/** A run on the clock that loses a queued job. Five jobs are queued for a printer that is not ready, and node 0
    reads them in one reply. It spends 15 seconds on each of the first four; they stay blocked. A minute after
    the reply node 1 reclaims all five, the last of which node 0 turns to only now. Node 0 claims its job; node
    1 finds it claimed, calls it settled and acknowledges the entry; node 0 finds no receiver and reverts its
    claim. The row waits again, and its entry is gone. */
module TimedLoss {
  import opened Wrappers
  import opened JobRefs
  import opened DispatchLimits
  import opened StreamGroup
  import opened Protocol
  import opened DispatchSafety
  import opened QueueSafety
  import opened DeleteRule
  import opened NoLoss
  import opened ReclaimRule
  import opened TimedRuns
  import LoopTiming

  // ----- building timed runs -----

  ghost predicate Leading(run: seq<Moment>, t: Timed, kept: bool) {
    && TimedRun(Start, run) && After(Start, run) == t
    && ValidRun(Init, Steps(run)) && (kept ==> DisciplinedRun(Init, Steps(run)))
  }

  /** A timed run leads there; kept says whether it keeps the discipline of NoLoss all the way. */
  ghost predicate Reached(t: Timed, kept: bool) {
    exists run: seq<Moment> :: Leading(run, t, kept)
  }

  lemma {:induction false} TimedAppend(t: Timed, run: seq<Moment>, m: Moment)
    requires TimedRun(t, run) && Timely(After(t, run), m)
    ensures TimedRun(t, run + [m]) && After(t, run + [m]) == Next(After(t, run), m)
    ensures Steps(run + [m]) == Steps(run) + if m.event.Does? then [m.event.step] else []
    decreases |run|
  {
    if run == [] {
      assert [] + [m] == [m] && [m][1..] == [];
    } else {
      assert (run + [m])[0] == run[0] && (run + [m])[1..] == run[1..] + [m];
      TimedAppend(Next(t, run[0]), run[1..], m);
    }
  }

  /** One more step. */
  lemma Goes(t: Timed, kept: bool, at: nat, step: Step) returns (t': Timed)
    requires Reached(t, kept) && Timely(t, Moment(at, Does(step))) && (kept ==> Quiet(step))
    ensures Reached(t', kept) && t'.s == Apply(t.s, step) && t'.now == at && t'.stale == t.stale
    ensures t'.delivered == DeliveredNext(t, at, step) && t'.clocks == ClocksNext(t, at, step)
  {
    var m := Moment(at, Does(step));
    t' := Next(t, m);
    var run: seq<Moment> :| Leading(run, t, kept);
    TimedAppend(Start, run, m);
    TimedRunsAreRuns(Start, run);
    TimedRunsAreRuns(Start, run + [m]);
    if kept {
      DisciplinedAppend(Init, Steps(run), step);
    }
    assert Leading(run + [m], t', kept);
  }

  // ----- five jobs in the stream -----

  predicate Distinct(refs: seq<JobRef>) {
    forall i, k :: 0 <= i < k < |refs| ==> refs[i].jobId != refs[k].jobId
  }

  function Entries(refs: seq<JobRef>): seq<Values> {
    seq(|refs|, i requires 0 <= i < |refs| => ToXAddValues(refs[i]))
  }

  /** The first k jobs are queued, and nothing else has happened. */
  ghost predicate Queueing(t: Timed, refs: seq<JobRef>, k: nat)
    requires k <= |refs|
  {
    && Reached(t, true) && t == AtStart(t.s)
    && t.s.group == EmptyGroup.(log := Entries(refs[..k]))
    && t.s.batches == map[] && t.s.retired == {} && t.s.locks == map[]
    && (forall n: NodeId :: PcIn(t.s.pcs, Dispatcher(n)) == Idle)
    && (forall j: JobId :: j in t.s.rows ==> exists i :: 0 <= i < k && refs[i].jobId == j)
    && (forall i :: 0 <= i < k ==>
          RowIn(t.s.rows, refs[i].jobId) == Some(Submitted)
          && PcIn(t.s.pcs, Handler(refs[i].jobId)) == Replied(SaidQueued))
  }

  /** What POST /jobs leaves behind while the printer is not ready. */
  function WithQueued(s: State, ref: JobRef): State {
    s.(rows := s.rows[ref.jobId := Submitted], refs := s.refs[ref.jobId := ref],
       pcs := s.pcs[Handler(ref.jobId) := Replied(SaidQueued)], group := XAdd(s.group, ToXAddValues(ref)))
  }

  function WithHandler(s: State, ref: JobRef, pc: Pc): State {
    s.(rows := s.rows[ref.jobId := Submitted], refs := s.refs[ref.jobId := ref],
       pcs := s.pcs[Handler(ref.jobId) := pc])
  }

  lemma BlockedState(s: State, ref: JobRef)
    ensures var t, a := WithHandler(s, ref, Trying(ref.jobId)), Handler(ref.jobId);
      && AttemptEnabled(t, a, Check(false))
      && ApplyAttempt(t, a, Check(false)) == WithHandler(s, ref, Returned(ref.jobId, Blocked))
  {
    var t, a := WithHandler(s, ref, Trying(ref.jobId)), Handler(ref.jobId);
    assert t.pcs[a := Returned(ref.jobId, Blocked)] == s.pcs[a := Returned(ref.jobId, Blocked)];
  }

  lemma QueuedState(s: State, ref: JobRef)
    ensures var t := WithHandler(s, ref, Returned(ref.jobId, Blocked));
      && Enabled(t, Enqueue(ref.jobId, true, true))
      && Apply(t, Enqueue(ref.jobId, true, true)) == WithQueued(s, ref)
  {
    var t, a := WithHandler(s, ref, Returned(ref.jobId, Blocked)), Handler(ref.jobId);
    assert t.pcs[a := Replied(SaidQueued)] == s.pcs[a := Replied(SaidQueued)];
  }

  /** At time zero, before any consumer is known. */
  function AtStart(s: State): Timed {
    Timed(s, 0, map[], map[], {})
  }

  lemma GoesAtStart(s: State, step: Step)
    requires Reached(AtStart(s), true) && Enabled(s, step) && !step.OnNode?
    ensures Reached(AtStart(Apply(s, step)), true)
  {
    var t := Goes(AtStart(s), true, 0, step);
    assert DeliveredNext(AtStart(s), 0, step) == map[];
    assert t == AtStart(Apply(s, step));
  }

  /** Inserted, blocked, queued. */
  lemma QueueOne(s: State, ref: JobRef)
    requires Reached(AtStart(s), true) && ref.jobId !in s.rows
    ensures Reached(AtStart(WithQueued(s, ref)), true)
  {
    GoesAtStart(s, Submit(ref));
    assert Apply(s, Submit(ref)) == WithHandler(s, ref, Trying(ref.jobId));
    BlockedState(s, ref);
    GoesAtStart(WithHandler(s, ref, Trying(ref.jobId)), Attempts(Handler(ref.jobId), Check(false)));
    QueuedState(s, ref);
    GoesAtStart(WithHandler(s, ref, Returned(ref.jobId, Blocked)), Enqueue(ref.jobId, true, true));
  }

  lemma QueueNext(t: Timed, refs: seq<JobRef>, k: nat) returns (t': Timed)
    requires k < |refs| && Distinct(refs) && Queueing(t, refs, k)
    ensures Queueing(t', refs, k + 1)
  {
    QueueOne(t.s, refs[k]);
    t' := AtStart(WithQueued(t.s, refs[k]));
    assert Entries(refs[..k + 1]) == Entries(refs[..k]) + [ToXAddValues(refs[k])];
    QueuedFits(t.s, refs, k);
  }

  lemma QueuedFits(s: State, refs: seq<JobRef>, k: nat)
    requires k < |refs| && Distinct(refs)
    requires forall i :: 0 <= i < k ==>
               && RowIn(s.rows, refs[i].jobId) == Some(Submitted)
               && PcIn(s.pcs, Handler(refs[i].jobId)) == Replied(SaidQueued)
    ensures var s' := WithQueued(s, refs[k]);
      forall i :: 0 <= i < k + 1 ==>
        RowIn(s'.rows, refs[i].jobId) == Some(Submitted) && PcIn(s'.pcs, Handler(refs[i].jobId)) == Replied(SaidQueued)
  {
    forall i | 0 <= i < k ensures refs[i].jobId != refs[k].jobId {}
  }

  lemma {:induction false} QueueAll(refs: seq<JobRef>, k: nat) returns (t: Timed)
    requires k <= |refs| && Distinct(refs)
    ensures Queueing(t, refs, k)
  {
    if k == 0 {
      t := Start;
      assert Steps([]) == [] && Leading([], Start, true);
      assert Entries(refs[..0]) == [];
    } else {
      t := QueueAll(refs, k - 1);
      t := QueueNext(t, refs, k - 1);
    }
  }

  // ----- two dispatchers at work -----

  /** Where dispatchers 0 and 1 stand, and how the job of the last entry fares. */
  datatype View = View(pcs: (Pc, Pc), batches: (seq<EntryId>, seq<EntryId>), row: Status, locks: map<JobId, Actor>,
                       acked: bool)

  function PcOf(v: View, n: NodeId): Pc {
    if n == 0 then v.pcs.0 else v.pcs.1
  }

  function WithPc(v: View, n: NodeId, pc: Pc): View {
    v.(pcs := if n == 0 then (pc, v.pcs.1) else (v.pcs.0, pc))
  }

  function BatchSeen(v: View, n: NodeId): seq<EntryId> {
    if n == 0 then v.batches.0 else v.batches.1
  }

  function WithBatch(v: View, n: NodeId, b: seq<EntryId>): View {
    v.(batches := if n == 0 then (b, v.batches.1) else (v.batches.0, b))
  }

  const LAST: EntryId := 4

  ghost predicate Scene(s: State, refs: seq<JobRef>, v: View)
    requires |refs| == 5
  {
    && PcIn(s.pcs, Dispatcher(0)) == v.pcs.0 && PcIn(s.pcs, Dispatcher(1)) == v.pcs.1
    && BatchIn(s.batches, 0) == v.batches.0 && BatchIn(s.batches, 1) == v.batches.1
    && (forall n: NodeId :: n > 1 ==> BatchIn(s.batches, n) == [])
    && PcIn(s.pcs, Handler(refs[LAST].jobId)) == Replied(SaidQueued)
    && RowIn(s.rows, refs[LAST].jobId) == Some(v.row) && s.locks == v.locks && s.retired == {}
    && s.group.log == Entries(refs)
    && (if v.acked then LAST in s.group.acked else forall e: EntryId :: e < 5 ==> Pending(s.group, e))
  }

  lemma EntriesDecode(refs: seq<JobRef>, e: EntryId)
    requires e < |refs|
    ensures JobRefFromValues(Entries(refs)[e]) == Success(refs[e]) && IsEntry(Entries(refs), e, refs[e].jobId)
  {
    JobRefRoundTrip(refs[e]);
  }

  lemma SceneTake(s: State, refs: seq<JobRef>, v: View, n: NodeId)
    requires |refs| == 5 && Scene(s, refs, v) && n <= 1
    requires PcOf(v, n) == Idle && BatchSeen(v, n) != [] && BatchSeen(v, n)[0] < 5
    ensures NodeEnabled(s, n, Take)
    ensures Scene(ApplyNode(s, n, Take), refs, WithPc(v, n, Trying(refs[BatchSeen(v, n)[0]].jobId)))
  {
    TakesEntry(s, refs, BatchSeen(v, n)[0]);
    TakeKeepsBatches(s, n);
  }

  lemma TakesEntry(s: State, refs: seq<JobRef>, e: EntryId)
    requires s.group.log == Entries(refs) && e < |refs|
    ensures TakenPc(s, e) == Trying(refs[e].jobId)
  {
    EntriesDecode(refs, e);
  }

  lemma TakeKeepsBatches(s: State, n: NodeId)
    requires NodeEnabled(s, n, Take)
    ensures forall m: NodeId :: BatchIn(ApplyNode(s, n, Take).batches, m) == BatchIn(s.batches, m)
  {
  }

  lemma SceneAttempt(s: State, refs: seq<JobRef>, v: View, n: NodeId, at: Attempt)
    requires |refs| == 5 && Scene(s, refs, v) && n <= 1
    requires AttemptEnabled(s, Dispatcher(n), at) && !at.Crash? && !Publishing(at)
    ensures RowIn(AttemptRows(s, Dispatcher(n), at), refs[LAST].jobId).Some?
    ensures Scene(ApplyAttempt(s, Dispatcher(n), at), refs,
                  WithPc(v, n, AttemptPc(s, Dispatcher(n), at))
                    .(row := RowIn(AttemptRows(s, Dispatcher(n), at), refs[LAST].jobId).value,
                      locks := AttemptLocks(s, Dispatcher(n), at)))
  {
    var t := ApplyAttempt(s, Dispatcher(n), at);
    assert t.batches == s.batches && t.group == s.group && t.retired == s.retired;
  }

  lemma SceneLeave(s: State, refs: seq<JobRef>, v: View, n: NodeId)
    requires |refs| == 5 && Scene(s, refs, v) && n <= 1
    requires PcOf(v, n).Returned? && PcOf(v, n).out == Blocked && BatchSeen(v, n) != []
    ensures NodeEnabled(s, n, Leave)
    ensures Scene(ApplyNode(s, n, Leave), refs, WithBatch(WithPc(v, n, Idle), n, BatchSeen(v, n)[1..]))
  {
    assert forall m: NodeId :: m != n ==> BatchIn(ApplyNode(s, n, Leave).batches, m) == BatchIn(s.batches, m);
  }

  lemma SceneAck(s: State, refs: seq<JobRef>, v: View)
    requires |refs| == 5 && Scene(s, refs, v) && !v.acked
    requires PcOf(v, 1).Returned? && PcOf(v, 1).out == Settled && BatchSeen(v, 1) == [LAST]
    ensures NodeEnabled(s, 1, Ack(true))
    ensures Scene(ApplyNode(s, 1, Ack(true)), refs, WithBatch(WithPc(v, 1, Idle), 1, []).(acked := true))
  {
    assert Pending(s.group, LAST);
    assert forall m: NodeId :: m != 1 ==> BatchIn(ApplyNode(s, 1, Ack(true)).batches, m) == BatchIn(s.batches, m);
  }

  // ----- the same on the clock -----

  datatype Act = Act(now: nat, delivered: map<EntryId, nat>, clocks: map<NodeId, Clock>, v: View)

  ghost predicate Plays(t: Timed, refs: seq<JobRef>, kept: bool, act: Act)
    requires |refs| == 5
  {
    && Reached(t, kept) && Scene(t.s, refs, act.v)
    && t.now == act.now && t.delivered == act.delivered && t.clocks == act.clocks && t.stale == {}
  }

  /** Nothing overruns before at. */
  predicate InTime(act: Act, at: nat) {
    && act.now <= at
    && forall n: NodeId :: n in act.clocks ==>
         && n <= 1 && (BatchSeen(act.v, n) != [] ==> at <= act.clocks[n].since + HANDLE_TIMEOUT)
         && at < act.clocks[n].lastCall + LoopTiming.MAX_SILENCE + OTHER_LATENCY
  }

  lemma InTimeMayPass(t: Timed, refs: seq<JobRef>, kept: bool, act: Act, at: nat)
    requires |refs| == 5 && Plays(t, refs, kept, act) && InTime(act, at)
    ensures MayPass(t, at)
  {
  }

  /** A step that touches no consumer, once it is known what it does to the scene. */
  lemma PlayStep(t: Timed, refs: seq<JobRef>, kept: bool, act: Act, at: nat, step: Step, v: View) returns (t': Timed)
    requires |refs| == 5 && Plays(t, refs, kept, act) && InTime(act, at)
    requires Enabled(t.s, step) && Quiet(step) && !Calls(step) && Scene(Apply(t.s, step), refs, v)
    ensures t'.s == Apply(t.s, step)
    ensures Plays(t', refs, kept, Act(at, act.delivered, ClocksNext(t, at, step), v))
  {
    InTimeMayPass(t, refs, kept, act, at);
    QuietIsTimely(t, at, step);
    t' := Goes(t, kept, at, step);
  }

  lemma QuietIsTimely(t: Timed, at: nat, step: Step)
    requires MayPass(t, at) && Enabled(t.s, step) && Quiet(step) && !Calls(step)
    ensures Timely(t, Moment(at, Does(step))) && DeliveredNext(t, at, step) == t.delivered
  {
    assert HandedOut(t.s, step) == [];
  }

  lemma PlayAttempt(t: Timed, refs: seq<JobRef>, kept: bool, act: Act, at: nat, n: NodeId, command: Attempt)
    returns (t': Timed)
    requires |refs| == 5 && Plays(t, refs, kept, act) && InTime(act, at) && n <= 1
    requires AttemptEnabled(t.s, Dispatcher(n), command) && !command.Crash? && !Publishing(command)
    ensures RowIn(AttemptRows(t.s, Dispatcher(n), command), refs[LAST].jobId).Some?
    ensures t'.s == ApplyAttempt(t.s, Dispatcher(n), command)
    ensures Plays(t', refs, kept, Act(at, act.delivered, act.clocks,
              WithPc(act.v, n, AttemptPc(t.s, Dispatcher(n), command))
                .(row := RowIn(AttemptRows(t.s, Dispatcher(n), command), refs[LAST].jobId).value,
                  locks := AttemptLocks(t.s, Dispatcher(n), command))))
  {
    SceneAttempt(t.s, refs, act.v, n, command);
    t' := PlayStep(t, refs, kept, act, at, Attempts(Dispatcher(n), command),
                   WithPc(act.v, n, AttemptPc(t.s, Dispatcher(n), command))
                     .(row := RowIn(AttemptRows(t.s, Dispatcher(n), command), refs[LAST].jobId).value,
                       locks := AttemptLocks(t.s, Dispatcher(n), command)));
  }

  lemma PlayTake(t: Timed, refs: seq<JobRef>, kept: bool, act: Act, at: nat, n: NodeId) returns (t': Timed)
    requires |refs| == 5 && Plays(t, refs, kept, act) && InTime(act, at) && n <= 1
    requires PcOf(act.v, n) == Idle && BatchSeen(act.v, n) != [] && BatchSeen(act.v, n)[0] < 5
    ensures Plays(t', refs, kept, Act(at, act.delivered, act.clocks,
                                      WithPc(act.v, n, Trying(refs[BatchSeen(act.v, n)[0]].jobId))))
  {
    SceneTake(t.s, refs, act.v, n);
    t' := PlayStep(t, refs, kept, act, at, OnNode(n, Take),
                   WithPc(act.v, n, Trying(refs[BatchSeen(act.v, n)[0]].jobId)));
  }

  /** The clock of a dispatcher that is done with one more message. */
  function Ticked(clocks: map<NodeId, Clock>, n: NodeId, at: nat): map<NodeId, Clock> {
    if n in clocks then clocks[n := clocks[n].(done := clocks[n].done + 1, since := at)] else clocks
  }

  lemma TickedByOneMore(t: Timed, at: nat, n: NodeId, ns: NodeStep)
    requires ns.Leave? || ns.Ack?
    ensures ClocksNext(t, at, OnNode(n, ns)) == Ticked(t.clocks, n, at)
    ensures Quiet(OnNode(n, ns)) && !Calls(OnNode(n, ns))
  {
  }

  lemma PlayLeave(t: Timed, refs: seq<JobRef>, kept: bool, act: Act, at: nat, n: NodeId) returns (t': Timed)
    requires |refs| == 5 && Plays(t, refs, kept, act) && InTime(act, at) && n <= 1
    requires PcOf(act.v, n).Returned? && PcOf(act.v, n).out == Blocked && BatchSeen(act.v, n) != []
    ensures Plays(t', refs, kept, Act(at, act.delivered, Ticked(act.clocks, n, at),
                                      WithBatch(WithPc(act.v, n, Idle), n, BatchSeen(act.v, n)[1..])))
  {
    SceneLeave(t.s, refs, act.v, n);
    TickedByOneMore(t, at, n, Leave);
    t' := PlayStep(t, refs, kept, act, at, OnNode(n, Leave),
                   WithBatch(WithPc(act.v, n, Idle), n, BatchSeen(act.v, n)[1..]));
  }

  lemma PlayAck(t: Timed, refs: seq<JobRef>, kept: bool, act: Act, at: nat) returns (t': Timed)
    requires |refs| == 5 && Plays(t, refs, kept, act) && InTime(act, at) && !act.v.acked
    requires PcOf(act.v, 1).Returned? && PcOf(act.v, 1).out == Settled && BatchSeen(act.v, 1) == [LAST]
    ensures Plays(t', refs, kept, Act(at, act.delivered, Ticked(act.clocks, 1, at),
                                      WithBatch(WithPc(act.v, 1, Idle), 1, []).(acked := true)))
  {
    SceneAck(t.s, refs, act.v);
    TickedByOneMore(t, at, 1, Ack(true));
    t' := PlayStep(t, refs, kept, act, at, OnNode(1, Ack(true)),
                   WithBatch(WithPc(act.v, 1, Idle), 1, []).(acked := true));
  }

  /** The eligibility check of a job, or any later command of its attempt, whose effect on the scene is known. */
  lemma PlayCommand(t: Timed, refs: seq<JobRef>, kept: bool, act: Act, at: nat, n: NodeId, command: Attempt, pc: Pc,
                    row: Status, locks: map<JobId, Actor>) returns (t': Timed)
    requires |refs| == 5 && Plays(t, refs, kept, act) && InTime(act, at) && n <= 1
    requires Commanded(t.s, refs, n, command, pc, row, locks)
    ensures Plays(t', refs, kept, Act(at, act.delivered, act.clocks, WithPc(act.v, n, pc).(row := row, locks := locks)))
  {
    t' := PlayAttempt(t, refs, kept, act, at, n, command);
  }

  /** The command can be issued, and this is what it does. */
  predicate Commanded(s: State, refs: seq<JobRef>, n: NodeId, command: Attempt, pc: Pc, row: Status,
                      locks: map<JobId, Actor>)
    requires |refs| == 5
  {
    && AttemptEnabled(s, Dispatcher(n), command) && !command.Crash? && !Publishing(command)
    && AttemptPc(s, Dispatcher(n), command) == pc
    && RowIn(AttemptRows(s, Dispatcher(n), command), refs[LAST].jobId) == Some(row)
    && AttemptLocks(s, Dispatcher(n), command) == locks
  }

  lemma Looks(s: State, refs: seq<JobRef>, v: View, n: NodeId, eligible: bool)
    requires |refs| == 5 && Scene(s, refs, v) && n <= 1 && PcOf(v, n).Trying?
    ensures Commanded(s, refs, n, Check(eligible),
                      if eligible then Claiming(PcOf(v, n).job) else Returned(PcOf(v, n).job, Blocked), v.row, v.locks)
  {
  }

  /** A message whose job is still blocked: taken, looked at, and left pending. */
  lemma PlaySkip(t: Timed, refs: seq<JobRef>, kept: bool, act: Act, at: nat, n: NodeId) returns (t': Timed)
    requires |refs| == 5 && Plays(t, refs, kept, act) && InTime(act, at) && n <= 1
    requires PcOf(act.v, n) == Idle && BatchSeen(act.v, n) != [] && BatchSeen(act.v, n)[0] < 5
    ensures Plays(t', refs, kept, Act(at, act.delivered, Ticked(act.clocks, n, at),
                                      WithBatch(act.v, n, BatchSeen(act.v, n)[1..])))
  {
    var u := PlayLook(t, refs, kept, act, at, n, false);
    t' := PlayLeave(u, refs, kept, Act(at, act.delivered, act.clocks,
                                       WithPc(act.v, n, Returned(refs[BatchSeen(act.v, n)[0]].jobId, Blocked))), at, n);
  }

  /** A message taken in hand, and the eligibility check of its job. */
  lemma PlayLook(t: Timed, refs: seq<JobRef>, kept: bool, act: Act, at: nat, n: NodeId, eligible: bool)
    returns (t': Timed)
    requires |refs| == 5 && Plays(t, refs, kept, act) && InTime(act, at) && n <= 1
    requires PcOf(act.v, n) == Idle && BatchSeen(act.v, n) != [] && BatchSeen(act.v, n)[0] < 5
    ensures var job := refs[BatchSeen(act.v, n)[0]].jobId;
      Plays(t', refs, kept, Act(at, act.delivered, act.clocks,
                                WithPc(act.v, n, if eligible then Claiming(job) else Returned(job, Blocked))))
  {
    var job := refs[BatchSeen(act.v, n)[0]].jobId;
    var u := PlayTake(t, refs, kept, act, at, n);
    var v := WithPc(act.v, n, Trying(job));
    Looks(u.s, refs, v, n, eligible);
    t' := PlayCommand(u, refs, kept, Act(at, act.delivered, act.clocks, v), at, n, Check(eligible),
                      if eligible then Claiming(job) else Returned(job, Blocked), act.v.row, act.v.locks);
  }

  // ----- the run -----

  const FIVE: seq<EntryId> := [0, 1, 2, 3, LAST]

  function Working(k: nat): View
    requires k <= 5
  {
    View((Idle, Idle), (FIVE[k..], []), Submitted, map[], false)
  }

  lemma ReadsAll(s: State, refs: seq<JobRef>)
    requires |refs| == 5 && s.group == EmptyGroup.(log := Entries(refs))
    ensures ReadCount(s.group, READ_COUNT) == 5 && Ids(s.group.cursor, 5) == FIVE
    ensures XReadGroup(s.group, 0, READ_COUNT).log == Entries(refs)
    ensures forall e: EntryId :: e < 5 ==> e in FIVE && Pending(XReadGroup(s.group, 0, READ_COUNT), e)
  {
    assert READ_COUNT == 10;
    assert Ids(s.group.cursor, 5) == FIVE;
    var g' := XReadGroup(s.group, 0, READ_COUNT);
    forall e: EntryId | e < 5 ensures e in FIVE && Pending(g', e) {
      assert FIVE[e] == e;
      assert e in Owned(g', 0);
    }
  }

  lemma SceneAfterRead(t: Timed, refs: seq<JobRef>, read: Step)
    requires |refs| == 5 && Queueing(t, refs, 5) && read == OnNode(0, Read(true))
    ensures Enabled(t.s, read) && HandedOut(t.s, read) == FIVE && Scene(Apply(t.s, read), refs, Working(0))
  {
    assert refs[..5] == refs;
    ReadsAll(t.s, refs);
    assert FIVE[0..] == FIVE;
    assert BatchIn(Apply(t.s, read).batches, 0) == FIVE;
    assert RowIn(t.s.rows, refs[4].jobId) == Some(Submitted);
  }

  lemma SceneRead(t: Timed, refs: seq<JobRef>) returns (read: Step)
    requires |refs| == 5 && Queueing(t, refs, 5)
    ensures Timely(t, Moment(0, Does(read))) && Quiet(read)
    ensures Scene(Apply(t.s, read), refs, Working(0))
    ensures ClocksNext(t, 0, read) == map[0 := Clock(0, 0, 0, 0)] && ReadAtZero(DeliveredNext(t, 0, read))
  {
    read := OnNode(0, Read(true));
    SceneAfterRead(t, refs, read);
    ReadsAtStart(t.s, read);
  }

  predicate ReadAtZero(delivered: map<EntryId, nat>) {
    forall e: EntryId :: e in FIVE ==> e in delivered && delivered[e] == 0
  }

  lemma ReadsAtStart(s: State, read: Step)
    requires read == OnNode(0, Read(true)) && Enabled(s, read) && HandedOut(s, read) == FIVE
    ensures ReadAtZero(DeliveredNext(AtStart(s), 0, read))
    ensures Timely(AtStart(s), Moment(0, Does(read))) && Quiet(read)
    ensures ClocksNext(AtStart(s), 0, read) == map[0 := Clock(0, 0, 0, 0)]
  {
    forall e: EntryId | e < 5 ensures e in FIVE {
      assert FIVE[e] == e;
    }
  }

  /** A step that hands entries to a consumer, once it is known what it does. */
  lemma PlayCall(t: Timed, refs: seq<JobRef>, kept: bool, at: nat, step: Step, clocks: map<NodeId, Clock>, v: View)
    returns (t': Timed)
    requires |refs| == 5 && Reached(t, kept) && t.stale == {}
    requires Timely(t, Moment(at, Does(step))) && (kept ==> Quiet(step))
    requires ClocksNext(t, at, step) == clocks && Scene(Apply(t.s, step), refs, v)
    ensures Plays(t', refs, kept, Act(at, DeliveredNext(t, at, step), clocks, v))
  {
    t' := Goes(t, kept, at, step);
  }

  /** Node 0 reads the five jobs. */
  lemma PlayRead(t: Timed, refs: seq<JobRef>) returns (t': Timed, d: map<EntryId, nat>)
    requires |refs| == 5 && Queueing(t, refs, 5)
    ensures Plays(t', refs, true, Served(d, 0)) && ReadAtZero(d)
  {
    var read := SceneRead(t, refs);
    d := DeliveredNext(t, 0, read);
    t' := PlayCall(t, refs, true, 0, read, map[0 := Clock(0, 0, 0, 0)], Working(0));
  }

  /** What node 0 has left after k messages, 15 seconds each. */
  function Served(d: map<EntryId, nat>, k: nat): Act
    requires k <= 4
  {
    Act(15_000 * k, d, map[0 := Clock(0, k, 15_000 * k, 0)], Working(k))
  }

  /** It spends 15 seconds on each of the first four, in vain. */
  lemma {:induction false} PlayFour(t: Timed, refs: seq<JobRef>, d: map<EntryId, nat>, k: nat) returns (t': Timed)
    requires |refs| == 5 && k <= 4 && Plays(t, refs, true, Served(d, k))
    ensures Plays(t', refs, true, Served(d, 4))
    decreases 4 - k
  {
    if k == 4 {
      t' := t;
    } else {
      t' := PlayOne(t, refs, d, k);
      t' := PlayFour(t', refs, d, k + 1);
    }
  }

  lemma PlayOne(t: Timed, refs: seq<JobRef>, d: map<EntryId, nat>, k: nat) returns (t': Timed)
    requires |refs| == 5 && k < 4 && Plays(t, refs, true, Served(d, k))
    ensures Plays(t', refs, true, Served(d, k + 1))
  {
    NextServed(d, k);
    t' := PlaySkip(t, refs, true, Served(d, k), 15_000 * (k + 1), 0);
  }

  lemma NextServed(d: map<EntryId, nat>, k: nat)
    requires k < 4
    ensures var act, at := Served(d, k), 15_000 * (k + 1);
      && InTime(act, at) && PcOf(act.v, 0) == Idle && BatchSeen(act.v, 0) != [] && BatchSeen(act.v, 0)[0] < 5
      && Act(at, act.delivered, Ticked(act.clocks, 0, at), WithBatch(act.v, 0, BatchSeen(act.v, 0)[1..]))
         == Served(d, k + 1)
  {
    assert FIVE[k..][0] == k && FIVE[k..][1..] == FIVE[k + 1..];
  }

  // ----- the overlap -----

  /** Just before node 1 reclaims: a minute after the reply, node 0 has finished four messages of five. */
  lemma PlayUntilReclaim(refs: seq<JobRef>) returns (t: Timed, d: map<EntryId, nat>)
    requires |refs| == 5 && Distinct(refs)
    ensures Plays(t, refs, true, Served(d, 4)) && ReadAtZero(d)
  {
    t := QueueAll(refs, 5);
    t, d := PlayRead(t, refs);
    t := PlayFour(t, refs, d, 0);
  }

  lemma SceneReclaim(s: State, refs: seq<JobRef>)
    requires |refs| == 5 && Scene(s, refs, Working(4))
    ensures NodeEnabled(s, 1, Reclaim(FIVE, true))
    ensures Scene(ApplyNode(s, 1, Reclaim(FIVE, true)), refs,
                  View((Idle, Idle), ([LAST], FIVE), Submitted, map[], false))
  {
    assert FIVE[4..] == [LAST];
    var s' := ApplyNode(s, 1, Reclaim(FIVE, true));
    forall e: EntryId | e < 5 ensures Pending(s'.group, e) {
      assert FIVE[e] == e;
      assert e in Owned(s'.group, 1);
    }
    assert forall m: NodeId :: m != 1 ==> BatchIn(s'.batches, m) == BatchIn(s.batches, m);
  }

  lemma FiveAreIdle(t: Timed)
    requires ReadAtZero(t.delivered)
    ensures forall i :: 0 <= i < |FIVE| ==> IdleFor(t, FIVE[i], 60_000)
  {
    assert CLAIM_MIN_IDLE == 60_000;
    forall i | 0 <= i < |FIVE| ensures IdleFor(t, FIVE[i], 60_000) {
      assert FIVE[i] in FIVE;
    }
  }

  lemma ReclaimFits(t: Timed, at: nat, reclaim: Step)
    requires MayPass(t, at) && reclaim == OnNode(1, Reclaim(FIVE, true)) && Enabled(t.s, reclaim)
    requires forall i :: 0 <= i < |FIVE| ==> IdleFor(t, FIVE[i], at)
    ensures Timely(t, Moment(at, Does(reclaim)))
  {
  }

  lemma ReclaimIsTimely(t: Timed, refs: seq<JobRef>, d: map<EntryId, nat>) returns (reclaim: Step)
    requires |refs| == 5 && Plays(t, refs, true, Served(d, 4)) && ReadAtZero(d)
    ensures reclaim == OnNode(1, Reclaim(FIVE, true))
    ensures Timely(t, Moment(60_000, Does(reclaim)))
    ensures Scene(Apply(t.s, reclaim), refs, View((Idle, Idle), ([LAST], FIVE), Submitted, map[], false))
  {
    reclaim := OnNode(1, Reclaim(FIVE, true));
    assert MayPass(t, 60_000) by {
      assert InTime(Served(d, 4), 60_000);
      InTimeMayPass(t, refs, true, Served(d, 4), 60_000);
    }
    SceneReclaim(t.s, refs);
    FiveAreIdle(t);
    ReclaimFits(t, 60_000, reclaim);
  }

  /** The rule of NoLoss is broken within the source's own timing: a run that keeps the discipline all the way
      comes to a minute after node 0's reply of five, of which it has finished four, when XAUTOCLAIM hands node
      1 a message that node 0 still has to handle. */
  lemma OverlapIsReachable(refs: seq<JobRef>) returns (run: seq<Moment>, t: Timed)
    requires |refs| == 5 && Distinct(refs)
    ensures TimedRun(Start, run) && After(Start, run) == t
    ensures ValidRun(Init, Steps(run)) && DisciplinedRun(Init, Steps(run))
    ensures 0 in t.clocks && t.clocks[0].replyAt == 0 && t.clocks[0].done == 4
    ensures Timely(t, Moment(60_000, Does(OnNode(1, Reclaim(FIVE, true)))))
    ensures !OwnersAreDone(t.s, 1, FIVE)
  {
    var d: map<EntryId, nat>;
    t, d := PlayUntilReclaim(refs);
    var reclaim := ReclaimIsTimely(t, refs, d);
    run :| Leading(run, t, true);
    assert FIVE[4..] == [LAST] && FIVE[4] == LAST;
    assert Holds(t.s, 0, LAST);
    EntriesDecode(refs, LAST);
    assert IsEntry(t.s.group.log, LAST, refs[LAST].jobId) && !Closed(t.s, refs[LAST].jobId);
  }

  // ----- and the loss -----

  /** The stage after the reclaim; node 1 has skipped k messages since. */
  function Overlap(d: map<EntryId, nat>, k: nat, pcs: (Pc, Pc), row: Status, locks: map<JobId, Actor>): Act
    requires k <= 5
  {
    Act(60_000, d, map[0 := Clock(0, 4, 60_000, 0), 1 := Clock(60_000, k, 60_000, 60_000)],
        View(pcs, ([LAST], FIVE[k..]), row, locks, false))
  }

  lemma OverlapInTime(d: map<EntryId, nat>, k: nat, pcs: (Pc, Pc), row: Status, locks: map<JobId, Actor>)
    requires k <= 5
    ensures InTime(Overlap(d, k, pcs, row, locks), 60_000)
  {
  }

  lemma PlayReclaim(t: Timed, refs: seq<JobRef>, d: map<EntryId, nat>) returns (t': Timed, d': map<EntryId, nat>)
    requires |refs| == 5 && Plays(t, refs, true, Served(d, 4)) && ReadAtZero(d)
    ensures Plays(t', refs, false, Overlap(d', 0, (Idle, Idle), Submitted, map[]))
  {
    var reclaim := ReclaimIsTimely(t, refs, d);
    d' := DeliveredNext(t, 60_000, reclaim);
    assert FIVE[0..] == FIVE;
    assert Reached(t, false) by {
      var run: seq<Moment> :| Leading(run, t, true);
      assert Leading(run, t, false);
    }
    t' := PlayCall(t, refs, false, 60_000, reclaim, Overlap(d', 0, (Idle, Idle), Submitted, map[]).clocks,
                   Overlap(d', 0, (Idle, Idle), Submitted, map[]).v);
  }

  lemma Locks(s: State, refs: seq<JobRef>, v: View, j: JobId)
    requires |refs| == 5 && Scene(s, refs, v) && j == refs[LAST].jobId && PcOf(v, 0) == Claiming(j)
    requires v.row == Submitted && v.locks == map[]
    ensures Commanded(s, refs, 0, Lock, Locked(j), Submitted, map[j := Dispatcher(0)])
  {
  }

  lemma Marks(s: State, refs: seq<JobRef>, v: View, j: JobId)
    requires |refs| == 5 && Scene(s, refs, v) && PcOf(v, 0) == Locked(j)
    ensures Commanded(s, refs, 0, Mark, Marked(j), v.row, v.locks)
  {
  }

  lemma Commits(s: State, refs: seq<JobRef>, v: View, j: JobId)
    requires |refs| == 5 && Scene(s, refs, v) && j == refs[LAST].jobId && PcOf(v, 0) == Marked(j)
    requires v.locks == map[j := Dispatcher(0)]
    ensures Commanded(s, refs, 0, Commit, Claimed(j), Dispatching, map[])
  {
    assert Unlocked(s.locks, Dispatcher(0)) == map[];
  }

  lemma Settles(s: State, refs: seq<JobRef>, v: View, j: JobId)
    requires |refs| == 5 && Scene(s, refs, v) && j == refs[LAST].jobId && PcOf(v, 1) == Claiming(j)
    requires v.row == Dispatching
    ensures Commanded(s, refs, 1, Lock, Returned(j, Settled), v.row, v.locks)
  {
  }

  lemma FindsNobody(s: State, refs: seq<JobRef>, v: View, j: JobId)
    requires |refs| == 5 && Scene(s, refs, v) && PcOf(v, 0) == Claimed(j)
    ensures Commanded(s, refs, 0, Publish(0), Reverting(j, false), v.row, v.locks)
  {
  }

  lemma Reverts(s: State, refs: seq<JobRef>, v: View, j: JobId)
    requires |refs| == 5 && Scene(s, refs, v) && j == refs[LAST].jobId && PcOf(v, 0) == Reverting(j, false)
    requires v.locks == map[]
    ensures Commanded(s, refs, 0, Requeue(true, true), Returned(j, Blocked), Queued, v.locks)
  {
  }

  /** Node 0 turns to the last message and claims its job. */
  lemma PlayClaim(t: Timed, refs: seq<JobRef>, d: map<EntryId, nat>, j: JobId) returns (t': Timed)
    requires |refs| == 5 && j == refs[LAST].jobId
    requires Plays(t, refs, false, Overlap(d, 0, (Idle, Idle), Submitted, map[]))
    ensures Plays(t', refs, false, Overlap(d, 0, (Claimed(j), Idle), Dispatching, map[]))
  {
    var held := map[j := Dispatcher(0)];
    OverlapInTime(d, 0, (Idle, Idle), Submitted, map[]);
    t' := PlayLook(t, refs, false, Overlap(d, 0, (Idle, Idle), Submitted, map[]), 60_000, 0, true);
    t' := PlayLock(t', refs, d, j);
    t' := PlayCommit(t', refs, d, j);
  }

  lemma PlayLock(t: Timed, refs: seq<JobRef>, d: map<EntryId, nat>, j: JobId) returns (t': Timed)
    requires |refs| == 5 && j == refs[LAST].jobId
    requires Plays(t, refs, false, Overlap(d, 0, (Claiming(j), Idle), Submitted, map[]))
    ensures Plays(t', refs, false, Overlap(d, 0, (Locked(j), Idle), Submitted, map[j := Dispatcher(0)]))
  {
    var act := Overlap(d, 0, (Claiming(j), Idle), Submitted, map[]);
    OverlapInTime(d, 0, (Claiming(j), Idle), Submitted, map[]);
    Locks(t.s, refs, act.v, j);
    t' := PlayCommand(t, refs, false, act, 60_000, 0, Lock, Locked(j), Submitted, map[j := Dispatcher(0)]);
  }

  lemma PlayCommit(t: Timed, refs: seq<JobRef>, d: map<EntryId, nat>, j: JobId) returns (t': Timed)
    requires |refs| == 5 && j == refs[LAST].jobId
    requires Plays(t, refs, false, Overlap(d, 0, (Locked(j), Idle), Submitted, map[j := Dispatcher(0)]))
    ensures Plays(t', refs, false, Overlap(d, 0, (Claimed(j), Idle), Dispatching, map[]))
  {
    var held := map[j := Dispatcher(0)];
    var act := Overlap(d, 0, (Locked(j), Idle), Submitted, held);
    OverlapInTime(d, 0, (Locked(j), Idle), Submitted, held);
    Marks(t.s, refs, act.v, j);
    t' := PlayCommand(t, refs, false, act, 60_000, 0, Mark, Marked(j), Submitted, held);
    act := Overlap(d, 0, (Marked(j), Idle), Submitted, held);
    OverlapInTime(d, 0, (Marked(j), Idle), Submitted, held);
    Commits(t'.s, refs, act.v, j);
    t' := PlayCommand(t', refs, false, act, 60_000, 0, Commit, Claimed(j), Dispatching, map[]);
  }

  /** Node 1 goes through the first four again. */
  lemma {:induction false} PlayBehind(t: Timed, refs: seq<JobRef>, d: map<EntryId, nat>, j: JobId, k: nat)
    returns (t': Timed)
    requires |refs| == 5 && k <= 4 && Plays(t, refs, false, Overlap(d, k, (Claimed(j), Idle), Dispatching, map[]))
    ensures Plays(t', refs, false, Overlap(d, 4, (Claimed(j), Idle), Dispatching, map[]))
    decreases 4 - k
  {
    if k == 4 {
      t' := t;
    } else {
      t' := PlayBehindOne(t, refs, d, j, k);
      t' := PlayBehind(t', refs, d, j, k + 1);
    }
  }

  lemma PlayBehindOne(t: Timed, refs: seq<JobRef>, d: map<EntryId, nat>, j: JobId, k: nat) returns (t': Timed)
    requires |refs| == 5 && k < 4 && Plays(t, refs, false, Overlap(d, k, (Claimed(j), Idle), Dispatching, map[]))
    ensures Plays(t', refs, false, Overlap(d, k + 1, (Claimed(j), Idle), Dispatching, map[]))
  {
    var act := Overlap(d, k, (Claimed(j), Idle), Dispatching, map[]);
    NextBehind(d, j, k);
    t' := PlaySkip(t, refs, false, act, 60_000, 1);
  }

  lemma NextBehind(d: map<EntryId, nat>, j: JobId, k: nat)
    requires k < 4
    ensures var act := Overlap(d, k, (Claimed(j), Idle), Dispatching, map[]);
      && InTime(act, 60_000) && PcOf(act.v, 1) == Idle && BatchSeen(act.v, 1) != [] && BatchSeen(act.v, 1)[0] < 5
      && Act(60_000, d, Ticked(act.clocks, 1, 60_000), WithBatch(act.v, 1, BatchSeen(act.v, 1)[1..]))
         == Overlap(d, k + 1, (Claimed(j), Idle), Dispatching, map[])
  {
    assert FIVE[k..][0] == k && FIVE[k..][1..] == FIVE[k + 1..];
  }

  /** Node 1 comes to the last message and finds its job claimed. */
  lemma PlaySettle(t: Timed, refs: seq<JobRef>, d: map<EntryId, nat>, j: JobId) returns (t': Timed)
    requires |refs| == 5 && j == refs[LAST].jobId
    requires Plays(t, refs, false, Overlap(d, 4, (Claimed(j), Idle), Dispatching, map[]))
    ensures Plays(t', refs, false, Overlap(d, 4, (Claimed(j), Returned(j, Settled)), Dispatching, map[]))
  {
    var u := PlayLookAtLast(t, refs, d, j);
    var act := Overlap(d, 4, (Claimed(j), Claiming(j)), Dispatching, map[]);
    OverlapInTime(d, 4, (Claimed(j), Claiming(j)), Dispatching, map[]);
    Settles(u.s, refs, act.v, j);
    t' := PlayCommand(u, refs, false, act, 60_000, 1, Lock, Returned(j, Settled), Dispatching, map[]);
  }

  lemma PlayLookAtLast(t: Timed, refs: seq<JobRef>, d: map<EntryId, nat>, j: JobId) returns (t': Timed)
    requires |refs| == 5 && j == refs[LAST].jobId
    requires Plays(t, refs, false, Overlap(d, 4, (Claimed(j), Idle), Dispatching, map[]))
    ensures Plays(t', refs, false, Overlap(d, 4, (Claimed(j), Claiming(j)), Dispatching, map[]))
  {
    assert FIVE[4..] == [LAST];
    OverlapInTime(d, 4, (Claimed(j), Idle), Dispatching, map[]);
    t' := PlayLook(t, refs, false, Overlap(d, 4, (Claimed(j), Idle), Dispatching, map[]), 60_000, 1, true);
  }

  /** So it acknowledges the entry. */
  lemma PlayAckLast(t: Timed, refs: seq<JobRef>, d: map<EntryId, nat>, j: JobId)
    returns (t': Timed, clocks: map<NodeId, Clock>)
    requires |refs| == 5
    requires Plays(t, refs, false, Overlap(d, 4, (Claimed(j), Returned(j, Settled)), Dispatching, map[]))
    ensures Plays(t', refs, false, Acked(d, clocks, Claimed(j), [LAST], Dispatching)) && ClocksEnd(clocks)
  {
    assert FIVE[4..] == [LAST];
    var act := Overlap(d, 4, (Claimed(j), Returned(j, Settled)), Dispatching, map[]);
    OverlapInTime(d, 4, (Claimed(j), Returned(j, Settled)), Dispatching, map[]);
    t' := PlayAck(t, refs, false, act, 60_000);
    clocks := Ticked(act.clocks, 1, 60_000);
  }

  /** Node 1 is through; node 0 stands here. */
  function Acked(d: map<EntryId, nat>, clocks: map<NodeId, Clock>, pc: Pc, batch: seq<EntryId>, row: Status): Act {
    Act(60_000, d, clocks, View((pc, Idle), (batch, []), row, map[], true))
  }

  predicate ClocksEnd(clocks: map<NodeId, Clock>) {
    forall n: NodeId :: n in clocks ==> n <= 1 && clocks[n].since == 60_000 && clocks[n].lastCall <= 60_000
  }

  lemma AckedInTime(d: map<EntryId, nat>, clocks: map<NodeId, Clock>, pc: Pc, batch: seq<EntryId>, row: Status)
    requires ClocksEnd(clocks)
    ensures InTime(Acked(d, clocks, pc, batch, row), 60_000)
  {
    assert LoopTiming.MAX_SILENCE + OTHER_LATENCY == 300_000;
  }

  /** Node 0 finds no receiver, and reverts its claim. */
  lemma PlayFindsNobody(t: Timed, refs: seq<JobRef>, d: map<EntryId, nat>, clocks: map<NodeId, Clock>, j: JobId)
    returns (t': Timed)
    requires |refs| == 5 && j == refs[LAST].jobId && ClocksEnd(clocks)
    requires Plays(t, refs, false, Acked(d, clocks, Claimed(j), [LAST], Dispatching))
    ensures Plays(t', refs, false, Acked(d, clocks, Reverting(j, false), [LAST], Dispatching))
  {
    var act := Acked(d, clocks, Claimed(j), [LAST], Dispatching);
    AckedInTime(d, clocks, Claimed(j), [LAST], Dispatching);
    FindsNobody(t.s, refs, act.v, j);
    t' := PlayCommand(t, refs, false, act, 60_000, 0, Publish(0), Reverting(j, false), Dispatching, map[]);
  }

  lemma PlayRevert(t: Timed, refs: seq<JobRef>, d: map<EntryId, nat>, clocks: map<NodeId, Clock>, j: JobId)
    returns (t': Timed)
    requires |refs| == 5 && j == refs[LAST].jobId && ClocksEnd(clocks)
    requires Plays(t, refs, false, Acked(d, clocks, Reverting(j, false), [LAST], Dispatching))
    ensures Plays(t', refs, false, Acked(d, clocks, Returned(j, Blocked), [LAST], Queued))
  {
    var act := Acked(d, clocks, Reverting(j, false), [LAST], Dispatching);
    AckedInTime(d, clocks, Reverting(j, false), [LAST], Dispatching);
    Reverts(t.s, refs, act.v, j);
    t' := PlayCommand(t, refs, false, act, 60_000, 0, Requeue(true, true), Returned(j, Blocked), Queued, map[]);
  }

  /** It leaves the entry, which it believes pending. */
  lemma PlayEnd(t: Timed, refs: seq<JobRef>, d: map<EntryId, nat>, clocks: map<NodeId, Clock>, j: JobId)
    returns (t': Timed, v: View)
    requires |refs| == 5 && j == refs[LAST].jobId && ClocksEnd(clocks)
    requires Plays(t, refs, false, Acked(d, clocks, Returned(j, Blocked), [LAST], Queued))
    ensures Reached(t', false) && Scene(t'.s, refs, v) && v.acked && v.batches == ([], []) && v.row == Queued
  {
    var act := Acked(d, clocks, Returned(j, Blocked), [LAST], Queued);
    AckedInTime(d, clocks, Returned(j, Blocked), [LAST], Queued);
    t' := PlayLeave(t, refs, false, act, 60_000, 0);
    v := WithBatch(WithPc(act.v, 0, Idle), 0, []);
  }

  lemma SceneIsLost(s: State, refs: seq<JobRef>, v: View)
    requires |refs| == 5 && Scene(s, refs, v) && v.acked && v.batches == ([], []) && v.row == Queued
    ensures PcIn(s.pcs, Handler(refs[LAST].jobId)) == Replied(SaidQueued) && Lost(s, refs[LAST].jobId)
  {
    EntriesDecode(refs, LAST);
    assert forall n: NodeId :: BatchIn(s.batches, n) == [];
  }

  /** So the code as it stands can lose a queued job: some run that fits its timing answers "queued" for the
      last of any five jobs, and ends with that job's row waiting, its only entry acknowledged, and nobody
      holding it. */
  lemma QueuedJobCanBeLost(refs: seq<JobRef>) returns (run: seq<Moment>)
    requires |refs| == 5 && Distinct(refs)
    ensures TimedRun(Start, run)
    ensures var s, j := After(Start, run).s, refs[4].jobId; PcIn(s.pcs, Handler(j)) == Replied(SaidQueued) && Lost(s, j)
  {
    var j := refs[LAST].jobId;
    var t, d := PlayUntilReclaim(refs);
    t, d := PlayReclaim(t, refs, d);
    t := PlayClaim(t, refs, d, j);
    t := PlayBehind(t, refs, d, j, 0);
    var clocks: map<NodeId, Clock>;
    t := PlaySettle(t, refs, d, j);
    t, clocks := PlayAckLast(t, refs, d, j);
    t := PlayFindsNobody(t, refs, d, clocks, j);
    t := PlayRevert(t, refs, d, clocks, j);
    var v: View;
    t, v := PlayEnd(t, refs, d, clocks, j);
    SceneIsLost(t.s, refs, v);
    run :| Leading(run, t, false);
  }
}
