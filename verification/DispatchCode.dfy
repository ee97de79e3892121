/** The source's control flow (dispatch/route.go, dispatch/dispatcher.go), command by command against
    shared Postgres and Redis state. Between any two commands of an actor, all other actors may take
    any number of steps. Each method is shown to add only protocol steps to the run, so the results of
    the other modules hold of it, and what its return value tells the caller is proved on top. */
module DispatchCode {
  import opened Wrappers
  import opened JobRefs
  import opened StreamGroup
  import opened Protocol
  import opened DispatchSafety
  import opened RowHistory
  import opened QueueSafety
  import opened DeleteRule
  import opened DispatchLimits

  datatype ClaimOutcome = ClaimWon | ClaimLost | ClaimSettled

  /** The steps an actor takes itself, its own crash included. */
  predicate By(step: Step, a: Actor) {
    match step
    case Submit(ref) => a == Handler(ref.jobId)
    case Enqueue(j, _, _) => a == Handler(j)
    case Answers(j) => a == Handler(j)
    case Attempts(b, _) => a == b
    case OnNode(n, ns) => a == Dispatcher(n) && !ns.Probe? && !ns.DelConsumer?
    case OnLink(_, _) => false
  }

  function BatchOf(s: State, a: Actor): seq<EntryId> {
    if a.Dispatcher? then BatchIn(s.batches, a.node) else []
  }

  /** What is counted of a run: the messages node n has taken in hand and acknowledged, its reads, and the
      publishes of actor a that reached a receiver. */
  datatype Counted = Taking(n: NodeId) | Acking(n: NodeId) | Reading(n: NodeId) | Reaching(a: Actor)

  predicate Counts(what: Counted, step: Step) {
    match what
    case Taking(n) => step == OnNode(n, Take)
    case Acking(n) => step.OnNode? && step.node == n && step.ns.Ack?
    case Reading(n) => step.OnNode? && step.node == n && step.ns.Read?
    case Reaching(a) => step.Attempts? && step.actor == a && Publishing(step.at)
  }

  ghost function Tally(run: seq<Step>, what: Counted): nat {
    if run == [] then 0
    else Tally(run[..|run| - 1], what) + if Counts(what, run[|run| - 1]) then 1 else 0
  }

  /** What an actor's commands, and everybody else's, leave alone while it works on one message: its batch,
      its place among the nodes that read, and the counts; sent of its publishes reach a receiver. */
  ghost predicate Keeps(s: State, run: seq<Step>, t: State, run': seq<Step>, a: Actor, sent: nat) {
    && run <= run' && BatchOf(t, a) == BatchOf(s, a)
    && (a.Dispatcher? ==> (a.node in t.retired <==> a.node in s.retired))
    && (a.Dispatcher? ==> Tally(run', Taking(a.node)) == Tally(run, Taking(a.node)))
    && (a.Dispatcher? ==> Tally(run', Acking(a.node)) == Tally(run, Acking(a.node)))
    && (a.Dispatcher? ==> Tally(run', Reading(a.node)) == Tally(run, Reading(a.node)))
    && Tally(run', Reaching(a)) == Tally(run, Reaching(a)) + sent
  }

  /** Nobody else moves an actor, takes messages out of its hands, or retires its node. */
  lemma OthersLeaveAlone(s: State, step: Step, a: Actor)
    requires Enabled(s, step) && !By(step, a)
    ensures PcIn(Apply(s, step).pcs, a) == PcIn(s.pcs, a) && BatchOf(Apply(s, step), a) == BatchOf(s, a)
    ensures a.Dispatcher? ==> (a.node in Apply(s, step).retired <==> a.node in s.retired)
  {
  }

  lemma MarksStay(s: State, step: Step)
    requires Enabled(s, step)
    ensures s.retired <= Apply(s, step).retired && s.probed <= Apply(s, step).probed
  {
  }

  lemma RetiredStays(s: State, step: Step, v: NodeId)
    requires Enabled(s, step) && v in s.retired
    ensures Owned(Apply(s, step).group, v) <= Owned(s.group, v)
  {
    match step
    case OnNode(n, ns) => RetiredGainsNothing(s, n, ns, v);
    case _ =>
  }

  lemma OthersAreNotCounted(run: seq<Step>, step: Step, a: Actor)
    requires !By(step, a)
    ensures Tally(run + [step], Reaching(a)) == Tally(run, Reaching(a))
    ensures a.Dispatcher? ==>
              && Tally(run + [step], Taking(a.node)) == Tally(run, Taking(a.node))
              && Tally(run + [step], Acking(a.node)) == Tally(run, Acking(a.node))
              && Tally(run + [step], Reading(a.node)) == Tally(run, Reading(a.node))
  {
    assert (run + [step])[..|run|] == run;
  }

  lemma OthersKeepPlaces(s: State, step: Step, a: Actor)
    requires Enabled(s, step) && !By(step, a)
    ensures LocallySame(s, Apply(s, step), a)
  {
    OthersLeaveAlone(s, step, a);
    MarksStay(s, step);
    forall v: NodeId | v in s.retired ensures Owned(Apply(s, step).group, v) <= Owned(s.group, v) {
      RetiredStays(s, step, v);
    }
  }

  /** Postgres, Redis and everybody's local state, with the run that led here. */
  class Cluster {
    var s: State
    ghost var run: seq<Step>

    ghost predicate Valid()
      reads this
    {
      ValidRun(Init, run) && Exec(Init, run) == s
    }

    constructor ()
      ensures Valid() && s == Init && run == []
    {
      s := Init;
      run := [];
    }

    method Do(step: Step)
      requires Valid() && Enabled(s, step)
      modifies this
      ensures Valid() && s == Apply(old(s), step) && run == old(run) + [step]
      ensures forall what: Counted :: Tally(run, what) == Tally(old(run), what) + if Counts(what, step) then 1 else 0
    {
      RunAppend(Init, run, [step]);
      assert [step][1..] == [] && ValidRun(Apply(s, step), []);
      assert (run + [step])[..|run|] == run;
      s := Apply(s, step);
      run := run + [step];
    }

    /** Everybody but a takes whatever steps they like; in particular nodes that read no more gain no entries. */
    method Interfere(a: Actor)
      requires Valid()
      modifies this
      ensures Valid() && Keeps(old(s), old(run), s, run, a, 0) && LocallySame(old(s), s, a)
    {
      var schedule: seq<Step> := *;
      for i := 0 to |schedule|
        invariant Valid() && Keeps(old(s), old(run), s, run, a, 0) && LocallySame(old(s), s, a)
      {
        if !By(schedule[i], a) && Enabled(s, schedule[i]) {
          OthersDo(schedule[i], a);
        }
      }
    }

    method OthersDo(step: Step, a: Actor)
      requires Valid() && Enabled(s, step) && !By(step, a)
      modifies this
      ensures Valid() && Keeps(old(s), old(run), s, run, a, 0) && LocallySame(old(s), s, a)
    {
      OthersLeaveAlone(s, step, a);
      OthersAreNotCounted(run, step, a);
      OthersKeepPlaces(s, step, a);
      Do(step);
    }

    /** One command of an actor's attempt, issued after the others had their say. */
    method Issue(a: Actor, at: Attempt)
      requires Valid() && AttemptEnabled(s, a, at) && !at.Requeue? && !at.Crash? && !at.Lock?
      modifies this
      ensures Valid() && Keeps(old(s), old(run), s, run, a, if Publishing(at) then 1 else 0)
      ensures run[|run| - 1] == Attempts(a, at)
      ensures PcIn(s.pcs, a) == old(AttemptPc(s, a, at))
      ensures Publishing(at) ==> CountIn(s.published, old(PcIn(s.pcs, a)).job) == 1
    {
      Interfere(a);
      if at.Publish? {
        TokenIsAlone(s, a, PcIn(s.pcs, a).job);
      }
      Do(Attempts(a, at));
    }

    /** LockJobForDispatch, and the state it found. */
    method IssueLock(a: Actor, j: JobId) returns (ghost found: State)
      requires Valid() && PcIn(s.pcs, a) == Claiming(j)
      modifies this
      ensures Valid() && Keeps(old(s), old(run), s, run, a, 0)
      ensures Found(run, |old(run)|, a, j, found)
      ensures PcIn(s.pcs, a) == if !Waits(found, j) then Returned(j, Settled)
                                else if j in found.locks then Returned(j, Blocked) else Locked(j)
    {
      Interfere(a);
      found := s;
      ghost var before := run;
      Do(Attempts(a, Lock));
      assert run[..|before|] == before;
      assert FoundAt(run, |before|, a, j, found);
    }
  }

  /** The row is submitted or queued. */
  ghost predicate Waits(s: State, j: JobId) {
    RowIn(s.rows, j) == Some(Submitted) || RowIn(s.rows, j) == Some(Queued)
  }

  /** And no claim transaction has it locked. */
  ghost predicate Free(s: State, j: JobId) {
    Waits(s, j) && j !in s.locks
  }

  /** In the run, from there on, a's LockJobForDispatch of j found this state. */
  ghost predicate Found(run: seq<Step>, from: nat, a: Actor, j: JobId, s: State) {
    exists k :: from <= k < |run| && FoundAt(run, k, a, j, s)
  }

  ghost predicate FoundAt(run: seq<Step>, k: nat, a: Actor, j: JobId, s: State)
    requires k < |run|
  {
    && run[k] == Attempts(a, Lock) && PcIn(s.pcs, a) == Claiming(j)
    && ValidRun(Init, run[..k]) && Exec(Init, run[..k]) == s
  }

  lemma FoundMeans(run: seq<Step>, from: nat, a: Actor, j: JobId, s: State)
    ensures Found(run, from, a, j, s) ==>
              exists k :: from <= k < |run| && run[k] == Attempts(a, Lock) && ValidRun(Init, run[..k])
                          && Exec(Init, run[..k]) == s && PcIn(s.pcs, a) == Claiming(j)
  {
    if Found(run, from, a, j, s) {
      var k :| from <= k < |run| && FoundAt(run, k, a, j, s);
    }
  }

  lemma FoundStays(run: seq<Step>, run': seq<Step>, from: nat, from': nat, a: Actor, j: JobId, s: State)
    requires Found(run, from, a, j, s) && run <= run' && from' <= from
    ensures Found(run', from', a, j, s)
  {
    var k :| from <= k < |run| && FoundAt(run, k, a, j, s);
    assert run'[..k] == run[..k] && run'[k] == run[k];
    assert FoundAt(run', k, a, j, s);
  }

  /** What others leave alone. */
  ghost predicate LocallySame(s: State, t: State, a: Actor) {
    && PcIn(t.pcs, a) == PcIn(s.pcs, a)
    && s.retired <= t.retired && s.probed <= t.probed
    && (forall v: NodeId :: v in s.retired ==> Owned(t.group, v) <= Owned(s.group, v))
  }

  // ----- route.go -----

  /** How the commands of one attempt turn out. RequeueJob may take effect without being seen to. */
  datatype Replies = Replies(
    eligible: bool,                // the printer's cached state says idle with room
    begun: bool,                   // BeginTx and LockJobForDispatch are answered
    marked: bool,                  // MarkJobDispatching succeeds
    committed: bool,               // COMMIT succeeds
    presigned: bool,               // there is a read URL
    sent: bool,                    // PUBLISH is answered
    receivers: nat,
    requeued: bool,                // RequeueJob is seen to succeed
    requeueApplied: bool)

  /** What attemptDispatch must return for them, given what its lock found: dispatched if the job was free and
      everything went well, settled if it was past the queue, blocked if it cannot go out right now, and an
      error only if some command failed. */
  ghost predicate Decides(r: Replies, found: State, j: JobId, outcome: Outcome) {
    && (outcome == Dispatched <==>
          r.eligible && r.begun && Free(found, j) && r.marked && r.committed && r.presigned && r.sent
          && r.receivers > 0)
    && (outcome == Settled <==> r.eligible && r.begun && !Waits(found, j))
    && (outcome == Blocked <==>
          || !r.eligible
          || (r.begun && Waits(found, j) && j in found.locks)
          || (r.begun && Free(found, j) && r.marked && r.committed && r.presigned && r.sent && r.receivers == 0
              && r.requeued))
    && (outcome == Errored <==>
          r.eligible && (!r.begun || (Free(found, j) && (!r.marked || !r.committed || !r.presigned || !r.sent
                                                         || (r.receivers == 0 && !r.requeued)))))
  }

  /** claimJob: one transaction of lock, mark and commit, any of whose commands may fail. It is settled exactly if
      the row was neither submitted nor queued, and lost exactly if another transaction had it locked. A won
      claim leaves the row in dispatching, unpublished, with this actor as its only claimer. */
  method ClaimJob(c: Cluster, a: Actor, j: JobId, r: Replies)
    returns (outcome: ClaimOutcome, err: bool, ghost found: State)
    requires c.Valid() && PcIn(c.s.pcs, a) == Claiming(j)
    modifies c
    ensures c.Valid() && Keeps(old(c.s), old(c.run), c.s, c.run, a, 0)
    ensures r.begun ==> Found(c.run, |old(c.run)|, a, j, found)
    ensures err <==> !r.begun || (Free(found, j) && (!r.marked || !r.committed))
    ensures !err ==> (outcome == ClaimSettled <==> !Waits(found, j))
    ensures !err ==> (outcome == ClaimLost <==> Waits(found, j) && j in found.locks)
    ensures !err ==> (outcome == ClaimWon <==> Free(found, j))
    ensures PcIn(c.s.pcs, a) == if err then Returned(j, Errored) else if outcome == ClaimWon then Claimed(j)
                                else Returned(j, if outcome == ClaimLost then Blocked else Settled)
    ensures !err && outcome == ClaimWon ==> RowIn(c.s.rows, j) == Some(Dispatching) && CountIn(c.s.published, j) == 0
    ensures !err && outcome == ClaimWon ==> forall b: Actor :: HasToken(PcIn(c.s.pcs, b), j) ==> b == a
  {
    found := c.s;
    outcome, err := ClaimSettled, true;
    if !r.begun {
      c.Issue(a, GiveUp);                   // BeginTx or LockJobForDispatch failed
      return;
    }
    found := c.IssueLock(a, j);
    if PcIn(c.s.pcs, a) == Returned(j, Settled) {
      return ClaimSettled, false, found;    // sql.ErrNoRows
    }
    if PcIn(c.s.pcs, a) == Returned(j, Blocked) {
      return ClaimLost, false, found;       // 55P03
    }
    ghost var run := c.run;
    outcome, err := MarkAndCommit(c, a, j, r);
    FoundStays(run, c.run, |old(c.run)|, |old(c.run)|, a, j, found);
  }

  /** The rest of the transaction, under the row lock. */
  method MarkAndCommit(c: Cluster, a: Actor, j: JobId, r: Replies) returns (outcome: ClaimOutcome, err: bool)
    requires c.Valid() && PcIn(c.s.pcs, a) == Locked(j)
    modifies c
    ensures c.Valid() && Keeps(old(c.s), old(c.run), c.s, c.run, a, 0)
    ensures err <==> !r.marked || !r.committed
    ensures err ==> PcIn(c.s.pcs, a) == Returned(j, Errored) && outcome == ClaimSettled
    ensures !err ==> PcIn(c.s.pcs, a) == Claimed(j) && outcome == ClaimWon
    ensures !err ==> RowIn(c.s.rows, j) == Some(Dispatching) && CountIn(c.s.published, j) == 0
    ensures !err ==> forall b: Actor :: HasToken(PcIn(c.s.pcs, b), j) ==> b == a
  {
    outcome, err := ClaimSettled, true;
    if !r.marked {
      c.Issue(a, GiveUp);                   // MarkJobDispatching failed: rollback
      return;
    }
    c.Issue(a, Mark);
    if !r.committed {
      c.Issue(a, GiveUp);                   // COMMIT failed: rollback
      return;
    }
    c.Issue(a, Commit);
    TokenIsAlone(c.s, a, j);
    return ClaimWon, false;
  }

  lemma TokenIsAlone(s: State, a: Actor, j: JobId)
    requires Reachable(s) && HasToken(PcIn(s.pcs, a), j)
    ensures RowIn(s.rows, j) == Some(Dispatching) && CountIn(s.published, j) == 0 && j !in s.locks
    ensures forall b: Actor :: HasToken(PcIn(s.pcs, b), j) ==> b == a
  {
    ReachableIsSafe(s);
  }

  /** revert: RequeueJob, whose failure may come before or after it took effect. */
  method Revert(c: Cluster, a: Actor, r: Replies) returns (err: bool)
    requires c.Valid() && PcIn(c.s.pcs, a).Reverting?
    modifies c
    ensures c.Valid() && Keeps(old(c.s), old(c.run), c.s, c.run, a, 0) && err == !r.requeued
    ensures PcIn(c.s.pcs, a) ==
              Returned(old(PcIn(c.s.pcs, a)).job, if err || old(PcIn(c.s.pcs, a)).failing then Errored else Blocked)
    ensures RowIn(c.s.rows, old(PcIn(c.s.pcs, a)).job) ==
              Some(if r.requeued || r.requeueApplied then Queued else Dispatching)
  {
    c.Interfere(a);
    TokenIsAlone(c.s, a, PcIn(c.s.pcs, a).job);
    c.Do(Attempts(a, Requeue(r.requeued || r.requeueApplied, r.requeued)));
    return !r.requeued;
  }

  /** attemptDispatch. It is settled exactly if its lock found the row neither submitted nor queued, and dispatched
      exactly if it found the job free and every command succeeded; then one publish of its own, the job's only
      one, reached a receiver. It is blocked exactly if the printer cannot take the job, another transaction has it
      locked, or nobody received it; otherwise some command failed. It leaves no claim of the actor behind. */
  method AttemptDispatch(c: Cluster, a: Actor, j: JobId, r: Replies) returns (outcome: Outcome, ghost found: State)
    requires c.Valid() && PcIn(c.s.pcs, a) == Trying(j)
    modifies c
    ensures c.Valid() && Keeps(old(c.s), old(c.run), c.s, c.run, a, if outcome == Dispatched then 1 else 0)
    ensures PcIn(c.s.pcs, a) == Returned(j, outcome)
    ensures r.eligible && r.begun ==> Found(c.run, |old(c.run)|, a, j, found)
    ensures Decides(r, found, j, outcome)
    ensures var waits := RowIn(found.rows, j) == Some(Submitted) || RowIn(found.rows, j) == Some(Queued);
      var claimed := r.eligible && r.begun && waits && j !in found.locks && r.marked && r.committed;
      && (outcome == Dispatched <==> claimed && r.presigned && r.sent && r.receivers > 0)
      && (outcome == Settled <==> r.eligible && r.begun && !waits)
      && (outcome == Blocked <==> !r.eligible || (r.begun && waits && j in found.locks)
                                  || (claimed && r.presigned && r.sent && r.receivers == 0 && r.requeued))
    ensures outcome == Dispatched ==> CountIn(c.s.published, j) == 1
  {
    found := c.s;
    c.Issue(a, Check(r.eligible));
    if !r.eligible {
      return Blocked, found;
    }
    ghost var from := |c.run|;
    outcome, found := ClaimAndSend(c, a, j, r);
    if r.begun {
      FoundStays(c.run, c.run, from, |old(c.run)|, a, j, found);
    }
  }

  /** The same, once the printer is known to be idle with room. */
  method ClaimAndSend(c: Cluster, a: Actor, j: JobId, r: Replies) returns (outcome: Outcome, ghost found: State)
    requires c.Valid() && PcIn(c.s.pcs, a) == Claiming(j) && r.eligible
    modifies c
    ensures c.Valid() && Keeps(old(c.s), old(c.run), c.s, c.run, a, if outcome == Dispatched then 1 else 0)
    ensures PcIn(c.s.pcs, a) == Returned(j, outcome)
    ensures r.begun ==> Found(c.run, |old(c.run)|, a, j, found)
    ensures Decides(r, found, j, outcome)
    ensures outcome == Dispatched ==> CountIn(c.s.published, j) == 1
  {
    var claim: ClaimOutcome;
    var err: bool;
    claim, err, found := ClaimJob(c, a, j, r);
    if err {
      return Errored, found;
    }
    match claim {
      case ClaimLost => return Blocked, found;
      case ClaimSettled => return Settled, found;
      case ClaimWon =>
    }
    ghost var run := c.run;
    outcome := SendFrame(c, a, j, r);
    FoundStays(run, c.run, |old(c.run)|, |old(c.run)|, a, j, found);
  }

  /** The rest of attemptDispatch, with the claim in hand: presign, publish, and revert what reached nobody. */
  method SendFrame(c: Cluster, a: Actor, j: JobId, r: Replies) returns (outcome: Outcome)
    requires c.Valid() && PcIn(c.s.pcs, a) == Claimed(j)
    modifies c
    ensures c.Valid() && Keeps(old(c.s), old(c.run), c.s, c.run, a, if outcome == Dispatched then 1 else 0)
    ensures PcIn(c.s.pcs, a) == Returned(j, outcome)
    ensures outcome == Dispatched <==> r.presigned && r.sent && r.receivers > 0
    ensures outcome == Blocked <==> r.presigned && r.sent && r.receivers == 0 && r.requeued
    ensures outcome == Errored <==> !r.presigned || !r.sent || (r.receivers == 0 && !r.requeued)
    ensures outcome == Dispatched ==> CountIn(c.s.published, j) == 1
    ensures outcome == Blocked ==> RowIn(c.s.rows, j) == Some(Queued)
  {
    var err: bool;
    if !r.presigned || !r.sent {
      c.Issue(a, PublishFails);             // no read URL, or PUBLISH failed
      err := Revert(c, a, r);
      return Errored;
    }
    c.Issue(a, Publish(r.receivers));
    if r.receivers == 0 {
      err := Revert(c, a, r);
      return if err then Errored else Blocked;
    }
    return Dispatched;
  }

  /** A request handler that has checked its printer is alone with its job: the row is as inserted or reverted. */
  lemma FreshJobIsFree(s: State, j: JobId)
    requires Reachable(s) && PcIn(s.pcs, Handler(j)) == Claiming(j)
    ensures Free(s, j)
  {
    ReachableInv(s);
    assert HandlerFits(s, j, PcIn(s.pcs, Handler(j)));
    if j in s.locks {
      assert InClaimTx(PcIn(s.pcs, s.locks[j]), j);
      if s.locks[j] != Handler(j) {
        HandlerWorksAlone(s, s.locks[j], j);
      }
    }
  }

  lemma FoundFree(run: seq<Step>, from: nat, j: JobId, found: State)
    requires Found(run, from, Handler(j), j, found)
    ensures Free(found, j)
  {
    FoundMeans(run, from, Handler(j), j, found);
    var k :| from <= k < |run| && ValidRun(Init, run[..k]) && Exec(Init, run[..k]) == found
             && PcIn(found.pcs, Handler(j)) == Claiming(j);
    assert Reachable(found);
    FreshJobIsFree(found, j);
  }

  /** TryDispatch, for a job just inserted. The answer is "dispatching" exactly if the printer can take the job
      and every command of the attempt succeeds, and then one publish of this request was received; "queued"
      exactly if the printer cannot take it, or nobody received it, and XADD succeeded; and a 5xx exactly if some
      command of this request failed. */
  method TryDispatch(c: Cluster, j: JobId, r: Replies, applied: bool, added: bool) returns (answer: Answer)
    requires c.Valid() && PcIn(c.s.pcs, Handler(j)) == Trying(j) && (added ==> applied)
    modifies c
    ensures c.Valid() && old(c.run) <= c.run && PcIn(c.s.pcs, Handler(j)) == Replied(answer)
    ensures answer == SaidDispatching <==>
              r.eligible && r.begun && r.marked && r.committed && r.presigned && r.sent && r.receivers > 0
    ensures answer == SaidQueued <==>
              added && (!r.eligible || (r.begun && r.marked && r.committed && r.presigned && r.sent && r.receivers == 0
                                        && r.requeued))
    ensures Tally(c.run, Reaching(Handler(j))) ==
              Tally(old(c.run), Reaching(Handler(j))) + if answer == SaidDispatching then 1 else 0
    ensures answer == SaidQueued ==> exists e: EntryId :: IsEntry(c.s.group.log, e, j)
    ensures answer == SaidDispatching ==> CountIn(c.s.published, j) == 1
  {
    ghost var from := |c.run|;
    ghost var found: State;
    var outcome: Outcome;
    outcome, found := AttemptDispatch(c, Handler(j), j, r);
    if r.eligible && r.begun {
      FoundFree(c.run, from, j, found);
    }
    if outcome == Blocked {
      answer := EnqueueJob(c, j, applied, added);
    } else {
      c.Do(Answers(j));
      answer := if outcome == Errored then SaidFailed else SaidDispatching;
    }
  }

  /** enqueue: XADD, whose failure may come before or after it took effect. "queued" is the answer exactly if
      XADD was seen to succeed, and exactly if it took effect is there an entry of the job. */
  method EnqueueJob(c: Cluster, j: JobId, applied: bool, ok: bool) returns (answer: Answer)
    requires c.Valid() && PcIn(c.s.pcs, Handler(j)) == Returned(j, Blocked) && (ok ==> applied)
    modifies c
    ensures c.Valid() && old(c.run) <= c.run && PcIn(c.s.pcs, Handler(j)) == Replied(answer)
    ensures answer == if ok then SaidQueued else SaidFailed
    ensures applied <==> exists e: EntryId :: IsEntry(c.s.group.log, e, j)
    ensures Tally(c.run, Reaching(Handler(j))) == Tally(old(c.run), Reaching(Handler(j)))
  {
    c.Interfere(Handler(j));
    ReachableInv(c.s);
    assert HandlerFits(c.s, j, PcIn(c.s.pcs, Handler(j)));
    assert forall e: EntryId :: !IsEntry(c.s.group.log, e, j);
    if applied {
      EnqueuedIsEntry(c.s, j, ok);
    }
    c.Do(Enqueue(j, applied, ok));
    answer := if ok then SaidQueued else SaidFailed;
  }

  /** The tail of CreateJob: insert the row, write its audit row, then try to dispatch it. The id is a fresh
      UUID. A failed insert leaves nothing; if the audit row fails, the request ends there, as if its handler had
      crashed. In both cases, and whenever some command of the attempt fails, the answer is a 5xx, and in no
      other. */
  method CreateJob(c: Cluster, ref: JobRef, inserted: bool, audited: bool, r: Replies, applied: bool, added: bool)
    returns (answer: Answer)
    requires c.Valid() && ref.jobId !in c.s.rows && (added ==> applied)
    modifies c
    ensures c.Valid() && old(c.run) <= c.run
    ensures !inserted ==> answer == SaidFailed && c.s == old(c.s)
    ensures inserted ==> PcIn(c.s.pcs, Handler(ref.jobId)) == Replied(answer)
    ensures answer == SaidDispatching <==>
              && inserted && audited
              && r.eligible && r.begun && r.marked && r.committed && r.presigned && r.sent && r.receivers > 0
    ensures answer == SaidQueued <==>
              && inserted && audited && added
              && (!r.eligible || (r.begun && r.marked && r.committed && r.presigned && r.sent && r.receivers == 0
                                  && r.requeued))
    ensures Tally(c.run, Reaching(Handler(ref.jobId))) ==
              Tally(old(c.run), Reaching(Handler(ref.jobId))) + if answer == SaidDispatching then 1 else 0
    ensures answer == SaidQueued ==> exists e: EntryId :: IsEntry(c.s.group.log, e, ref.jobId)
    ensures answer == SaidDispatching ==> CountIn(c.s.published, ref.jobId) == 1
  {
    if !inserted {
      return SaidFailed;
    }
    InsertJob(c, ref);
    if audited {
      answer := TryDispatch(c, ref.jobId, r, applied, added);
    } else {
      Abandon(c, ref.jobId);
      answer := SaidFailed;
    }
  }

  /** InsertJob. */
  method InsertJob(c: Cluster, ref: JobRef)
    requires c.Valid() && ref.jobId !in c.s.rows
    modifies c
    ensures c.Valid() && old(c.run) <= c.run && PcIn(c.s.pcs, Handler(ref.jobId)) == Trying(ref.jobId)
    ensures Tally(c.run, Reaching(Handler(ref.jobId))) == Tally(old(c.run), Reaching(Handler(ref.jobId)))
  {
    c.Do(Submit(ref));
  }

  /** The request ends with a 5xx and leaves the row behind. */
  method Abandon(c: Cluster, j: JobId)
    requires c.Valid() && PcIn(c.s.pcs, Handler(j)) == Trying(j)
    modifies c
    ensures c.Valid() && old(c.run) <= c.run && PcIn(c.s.pcs, Handler(j)) == Replied(SaidFailed)
    ensures Tally(c.run, Reaching(Handler(j))) == Tally(old(c.run), Reaching(Handler(j)))
  {
    c.Do(Attempts(Handler(j), Crash));
  }

  // ----- dispatcher.go -----

  /** handle, with Retry inlined, for the first message of the batch. What does not decode is acknowledged; what does
      is attempted, and acknowledged exactly if it was dispatched or settled: a message that is still blocked, or
      whose attempt failed, stays pending. Retry never queues a second entry. If XACK takes effect the entry is in
      nobody's pending list any more. */
  method Handle(c: Cluster, n: NodeId, r: Replies, acked: bool) returns (verdict: Option<Outcome>, ghost found: State)
    requires c.Valid() && PcIn(c.s.pcs, Dispatcher(n)).Idle? && BatchIn(c.s.batches, n) != [] && n !in c.s.retired
    modifies c
    ensures c.Valid() && old(c.run) <= c.run && n !in c.s.retired
    ensures PcIn(c.s.pcs, Dispatcher(n)).Idle? && BatchIn(c.s.batches, n) == old(BatchIn(c.s.batches, n))[1..]
    ensures Tally(c.run, Taking(n)) == Tally(old(c.run), Taking(n)) + 1
    ensures Tally(c.run, Reading(n)) == Tally(old(c.run), Reading(n))
    ensures var e := old(BatchIn(c.s.batches, n)[0]);
      && e < |old(c.s.group.log)| && (verdict.None? <==> JobOf(old(c.s.group.log)[e]).None?)
      && (verdict.Some? ==>
            var j := JobOf(old(c.s.group.log)[e]).value;
            && (r.eligible && r.begun ==> Found(c.run, |old(c.run)|, Dispatcher(n), j, found))
            && var waits := RowIn(found.rows, j) == Some(Submitted) || RowIn(found.rows, j) == Some(Queued);
               var claimed := r.eligible && r.begun && waits && j !in found.locks && r.marked && r.committed;
               && (verdict == Some(Dispatched) <==> claimed && r.presigned && r.sent && r.receivers > 0)
               && (verdict == Some(Settled) <==> r.eligible && r.begun && !waits)
               && (verdict == Some(Blocked) <==>
                     !r.eligible || (r.begun && waits && j in found.locks)
                     || (claimed && r.presigned && r.sent && r.receivers == 0 && r.requeued)))
    ensures Tally(c.run, Acking(n)) == Tally(old(c.run), Acking(n)) +
              match verdict
              case None => 1
              case Some(Dispatched) => 1
              case Some(Settled) => 1
              case Some(Blocked) => 0
              case Some(Errored) => 0
    ensures Tally(c.run, Reaching(Dispatcher(n))) ==
              Tally(old(c.run), Reaching(Dispatcher(n))) + if verdict == Some(Dispatched) then 1 else 0
    ensures acked && verdict != Some(Blocked) && verdict != Some(Errored) ==>
              var e := old(BatchIn(c.s.batches, n)[0]);
              !Pending(c.s.group, e) && (e in c.s.group.acked || e in c.s.group.discarded)
  {
    ghost var e := BatchIn(c.s.batches, n)[0];
    ghost var from := |c.run|;
    HeadIsRead(c.s, n);
    verdict, found := Retry(c, n, r);
    ghost var tried := c.run;
    AckOrLeave(c, n, verdict != Some(Blocked) && verdict != Some(Errored), acked);
    if verdict.Some? && r.eligible && r.begun {
      FoundStays(tried, c.run, from, from, Dispatcher(n), JobOf(old(c.s.group.log)[e]).value, found);
    }
  }

  /** What handle does before it acknowledges: decode, and Retry what decodes. */
  method Retry(c: Cluster, n: NodeId, r: Replies) returns (verdict: Option<Outcome>, ghost found: State)
    requires c.Valid() && PcIn(c.s.pcs, Dispatcher(n)).Idle? && BatchIn(c.s.batches, n) != [] && n !in c.s.retired
    modifies c
    ensures c.Valid() && old(c.run) <= c.run && n !in c.s.retired
    ensures BatchIn(c.s.batches, n) == old(BatchIn(c.s.batches, n))
    ensures Tally(c.run, Taking(n)) == Tally(old(c.run), Taking(n)) + 1
    ensures Tally(c.run, Reading(n)) == Tally(old(c.run), Reading(n))
    ensures Tally(c.run, Acking(n)) == Tally(old(c.run), Acking(n))
    ensures Tally(c.run, Reaching(Dispatcher(n))) ==
              Tally(old(c.run), Reaching(Dispatcher(n))) + if verdict == Some(Dispatched) then 1 else 0
    ensures var e := old(BatchIn(c.s.batches, n)[0]);
      && e < |old(c.s.group.log)| && (verdict.None? <==> JobOf(old(c.s.group.log)[e]).None?)
      && if verdict.None? then PcIn(c.s.pcs, Dispatcher(n)) == Garbled
         else
           var j := JobOf(old(c.s.group.log)[e]).value;
           && PcIn(c.s.pcs, Dispatcher(n)) == Returned(j, verdict.value)
           && (r.eligible && r.begun ==> Found(c.run, |old(c.run)|, Dispatcher(n), j, found))
           && Decides(r, found, j, verdict.value)
  {
    ghost var from := |c.run|;
    TakeInHand(c, n);
    verdict, found := None, c.s;
    if !PcIn(c.s.pcs, Dispatcher(n)).Garbled? {
      ghost var taken := |c.run|;
      var j := PcIn(c.s.pcs, Dispatcher(n)).job;
      var outcome: Outcome;
      outcome, found := AttemptDispatch(c, Dispatcher(n), j, r);
      verdict := Some(outcome);
      if r.eligible && r.begun {
        FoundStays(c.run, c.run, taken, from, Dispatcher(n), j, found);
      }
    }
  }

  /** XACK, which may fail, or nothing; either way the dispatcher goes on to the next message. */
  method AckOrLeave(c: Cluster, n: NodeId, acks: bool, acked: bool)
    requires c.Valid() && BatchIn(c.s.batches, n) != [] && n !in c.s.retired
    requires if acks then Acks(PcIn(c.s.pcs, Dispatcher(n)))
             else PcIn(c.s.pcs, Dispatcher(n)).Returned? && !Acks(PcIn(c.s.pcs, Dispatcher(n)))
    modifies c
    ensures c.Valid() && old(c.run) <= c.run && n !in c.s.retired
    ensures PcIn(c.s.pcs, Dispatcher(n)).Idle? && BatchIn(c.s.batches, n) == old(BatchIn(c.s.batches, n))[1..]
    ensures Tally(c.run, Taking(n)) == Tally(old(c.run), Taking(n))
    ensures Tally(c.run, Reading(n)) == Tally(old(c.run), Reading(n))
    ensures Tally(c.run, Acking(n)) == Tally(old(c.run), Acking(n)) + if acks then 1 else 0
    ensures Tally(c.run, Reaching(Dispatcher(n))) == Tally(old(c.run), Reaching(Dispatcher(n)))
    ensures acks && acked ==>
              var e := old(BatchIn(c.s.batches, n)[0]);
              !Pending(c.s.group, e) && (e in c.s.group.acked || e in c.s.group.discarded)
  {
    c.Interfere(Dispatcher(n));
    HeadIsRead(c.s, n);
    AckTakesOff(c.s.group, BatchIn(c.s.batches, n)[0]);
    c.Do(OnNode(n, if acks then Ack(acked) else Leave));
  }

  lemma HeadIsRead(s: State, n: NodeId)
    requires Reachable(s) && BatchIn(s.batches, n) != []
    ensures Conserved(s.group) && BatchIn(s.batches, n)[0] < s.group.cursor <= |s.group.log|
  {
    ReachableInv(s);
    assert BatchIn(s.batches, n)[0] in BatchIn(s.batches, n);
  }

  lemma AckTakesOff(g: Group, e: EntryId)
    requires Conserved(g) && e < g.cursor
    ensures !Pending(XAck(g, e), e) && (e in XAck(g, e).acked || e in XAck(g, e).discarded)
  {
    AckConserves(g, e);
  }

  /** The decoding that handle starts with. */
  method TakeInHand(c: Cluster, n: NodeId)
    requires c.Valid() && PcIn(c.s.pcs, Dispatcher(n)).Idle? && BatchIn(c.s.batches, n) != [] && n !in c.s.retired
    modifies c
    ensures c.Valid() && old(c.run) <= c.run && n !in c.s.retired
    ensures var e := old(BatchIn(c.s.batches, n)[0]);
      && e < |old(c.s.group.log)|
      && PcIn(c.s.pcs, Dispatcher(n)) == match JobOf(old(c.s.group.log)[e])
                                         case None => Garbled
                                         case Some(j) => Trying(j)
    ensures BatchIn(c.s.batches, n) == old(BatchIn(c.s.batches, n))
    ensures Tally(c.run, Taking(n)) == Tally(old(c.run), Taking(n)) + 1
    ensures Tally(c.run, Reading(n)) == Tally(old(c.run), Reading(n))
    ensures Tally(c.run, Acking(n)) == Tally(old(c.run), Acking(n))
    ensures Tally(c.run, Reaching(Dispatcher(n))) == Tally(old(c.run), Reaching(Dispatcher(n)))
  {
    HeadIsRead(c.s, n);
    ghost var before := c.run;
    c.Interfere(Dispatcher(n));
    LogOnlyGrows(before, c.run);
    c.Do(OnNode(n, Take));
  }

  lemma LogOnlyGrows(run: seq<Step>, run': seq<Step>)
    requires ValidRun(Init, run) && ValidRun(Init, run') && run <= run'
    ensures Exec(Init, run).group.log <= Exec(Init, run').group.log
  {
    assert run' == run + run'[|run|..];
    RunAppend(Init, run, run'[|run|..]);
    LogGrowsAlong(Exec(Init, run), run'[|run|..]);
  }

  lemma {:induction false} LogGrowsAlong(s: State, run: seq<Step>)
    requires ValidRun(s, run)
    ensures s.group.log <= Exec(s, run).group.log
    decreases |run|
  {
    if run != [] {
      StepGrowsLog(s, run[0]);
      LogGrowsAlong(Apply(s, run[0]), run[1..]);
    }
  }

  lemma StepGrowsLog(s: State, step: Step)
    requires Enabled(s, step)
    ensures s.group.log <= Apply(s, step).group.log
  {
  }

  /** What befalls one message: its attempt, its XACK, and whether the context is done after it. */
  datatype Luck = Luck(replies: Replies, acked: bool, stops: bool)

  /** The context is done after one of the first size messages. */
  ghost predicate CutShort(lucks: nat -> Luck, size: nat) {
    exists k: nat :: k < size && lucks(k).stops
  }

  /** The messages of one reply, one after another, until the context is done; then the rest of the batch stays in
      this consumer's pending list. */
  method HandleBatch(c: Cluster, n: NodeId, lucks: nat -> Luck) returns (handled: nat, cancelled: bool)
    requires c.Valid() && PcIn(c.s.pcs, Dispatcher(n)).Idle? && n !in c.s.retired
    modifies c
    ensures c.Valid() && old(c.run) <= c.run && Ready(c.s, n)
    ensures Tally(c.run, Reading(n)) == Tally(old(c.run), Reading(n))
    ensures Tally(c.run, Taking(n)) == Tally(old(c.run), Taking(n)) + handled
    ensures handled <= |old(BatchIn(c.s.batches, n))| && (handled > 0 ==> !CutShort(lucks, handled - 1))
    ensures if cancelled then handled > 0 && lucks(handled - 1).stops
            else handled == |old(BatchIn(c.s.batches, n))| && !CutShort(lucks, handled)
  {
    handled, cancelled := 0, false;
    while BatchIn(c.s.batches, n) != [] && !cancelled
      invariant c.Valid() && old(c.run) <= c.run && PcIn(c.s.pcs, Dispatcher(n)).Idle? && n !in c.s.retired
      invariant Tally(c.run, Reading(n)) == Tally(old(c.run), Reading(n))
      invariant Tally(c.run, Taking(n)) == Tally(old(c.run), Taking(n)) + handled
      invariant handled + |BatchIn(c.s.batches, n)| == |old(BatchIn(c.s.batches, n))|
      invariant handled > 0 ==> !CutShort(lucks, handled - 1)
      invariant cancelled ==> handled > 0 && lucks(handled - 1).stops
      invariant !cancelled ==> !CutShort(lucks, handled)
      decreases |BatchIn(c.s.batches, n)|
    {
      HandleNext(c, n, lucks(handled));
      cancelled := lucks(handled).stops;
      handled := handled + 1;
    }
    if cancelled {
      StopBatchEarly(c, n);
    }
  }

  /** handle, for the loops: the message is off the batch, whatever became of it. */
  method HandleNext(c: Cluster, n: NodeId, luck: Luck)
    requires c.Valid() && PcIn(c.s.pcs, Dispatcher(n)).Idle? && BatchIn(c.s.batches, n) != [] && n !in c.s.retired
    modifies c
    ensures c.Valid() && old(c.run) <= c.run && n !in c.s.retired && PcIn(c.s.pcs, Dispatcher(n)).Idle?
    ensures |BatchIn(c.s.batches, n)| == |old(BatchIn(c.s.batches, n))| - 1
    ensures Tally(c.run, Taking(n)) == Tally(old(c.run), Taking(n)) + 1
    ensures Tally(c.run, Reading(n)) == Tally(old(c.run), Reading(n))
  {
    var _, _ := Handle(c, n, luck.replies, luck.acked);
  }

  method StopBatchEarly(c: Cluster, n: NodeId)
    requires c.Valid() && PcIn(c.s.pcs, Dispatcher(n)).Idle? && n !in c.s.retired
    modifies c
    ensures c.Valid() && old(c.run) <= c.run && Ready(c.s, n)
    ensures Tally(c.run, Taking(n)) == Tally(old(c.run), Taking(n))
    ensures Tally(c.run, Reading(n)) == Tally(old(c.run), Reading(n))
  {
    c.Do(OnNode(n, StopBatch));
  }

  function Sum(counts: seq<nat>): nat {
    if counts == [] then 0 else Sum(counts[..|counts| - 1]) + counts[|counts| - 1]
  }

  lemma SumSnoc(counts: seq<nat>, x: nat)
    ensures Sum(counts + [x]) == Sum(counts) + x
  {
    assert (counts + [x])[..|counts|] == counts;
  }

  /** How one XREADGROUP turns out: whether it took effect, and whether its reply arrived. */
  datatype ReadFate = ReadFate(applied: bool, seen: bool)

  /** The first n replies are such that a drain goes on after them: between one and ten messages, and the context
      not done. */
  ghost predicate GoesOn(fetches: nat -> ReadFate, lucks: nat -> nat -> Luck, replies: seq<nat>, n: int)
    requires n <= |replies|
  {
    forall i: nat :: i < n ==>
      0 < replies[i] <= 10 && fetches(i) == ReadFate(true, true) && !CutShort(lucks(i), replies[i])
  }

  /** Why a drain ends, having read this often and taken this many messages in hand: after twenty replies or an
      empty one, after a failed read, or once the context is done; and after every reply but the last it went
      on. */
  ghost predicate Drained(fetches: nat -> ReadFate, lucks: nat -> nat -> Luck, replies: seq<nat>, stop: Stop,
                          times: int, taken: int) {
    && |replies| <= 20 && GoesOn(fetches, lucks, replies, |replies| - 1)
    && (replies != [] ==> replies[|replies| - 1] <= 10 && fetches(|replies| - 1) == ReadFate(true, true))
    && (stop == CommandFailed ==>
          |replies| < 20 && GoesOn(fetches, lucks, replies, |replies|) && fetches(|replies|) != ReadFate(true, true))
    && (stop == Exhausted ==>
          (|replies| == 20 && GoesOn(fetches, lucks, replies, 20)) || (replies != [] && replies[|replies| - 1] == 0))
    && (stop == Cancelled ==> replies != [] && CutShort(lucks(|replies| - 1), replies[|replies| - 1]))
    && times == |replies| + (if stop == CommandFailed && fetches(|replies|).applied then 1 else 0)
    && (stop != Cancelled ==> taken == Sum(replies))
  }

  /** A drain that is still going. */
  ghost predicate Draining(fetches: nat -> ReadFate, lucks: nat -> nat -> Luck, replies: seq<nat>, times: int,
                           taken: int) {
    |replies| <= 20 && GoesOn(fetches, lucks, replies, |replies|) && times == |replies| && taken == Sum(replies)
  }

  lemma DrainFails(fetches: nat -> ReadFate, lucks: nat -> nat -> Luck, replies: seq<nat>, times: int, taken: int)
    requires Draining(fetches, lucks, replies, times, taken) && |replies| < 20
    requires fetches(|replies|) != ReadFate(true, true)
    ensures Drained(fetches, lucks, replies, CommandFailed, times + if fetches(|replies|).applied then 1 else 0, taken)
  {
  }

  lemma DrainReads(fetches: nat -> ReadFate, lucks: nat -> nat -> Luck, replies: seq<nat>, times: int, taken: int,
                   size: nat, more: int)
    requires Draining(fetches, lucks, replies, times, taken) && |replies| < 20
    requires fetches(|replies|) == ReadFate(true, true) && size <= 10
    ensures var all := replies + [size];
      && (CutShort(lucks(|replies|), size) ==> Drained(fetches, lucks, all, Cancelled, times + 1, taken + more))
      && (more == size && !CutShort(lucks(|replies|), size) ==>
            if size == 0 then Drained(fetches, lucks, all, Exhausted, times + 1, taken + more)
            else Draining(fetches, lucks, all, times + 1, taken + more))
  {
    SumSnoc(replies, size);
    GoesOnSnoc(fetches, lucks, replies, size);
  }

  lemma GoesOnSnoc(fetches: nat -> ReadFate, lucks: nat -> nat -> Luck, replies: seq<nat>, size: nat)
    requires GoesOn(fetches, lucks, replies, |replies|)
    ensures GoesOn(fetches, lucks, replies + [size], |replies|)
    ensures 0 < size <= 10 && fetches(|replies|) == ReadFate(true, true) && !CutShort(lucks(|replies|), size) ==>
              GoesOn(fetches, lucks, replies + [size], |replies| + 1)
  {
  }

  /** drain: at most twenty reads, each for at most ten messages nobody in the group has seen, until one comes
      back empty, fails or is cut short by shutdown, and for no other reason. Every message of a reply is taken in
      hand once, up to the one after which the context is done. replies has the sizes of the replies, in order. */
  method Drain(c: Cluster, n: NodeId, fetches: nat -> ReadFate, lucks: nat -> nat -> Luck)
    returns (replies: seq<nat>, stop: Stop)
    requires c.Valid() && Ready(c.s, n)
    modifies c
    ensures c.Valid() && old(c.run) <= c.run && Ready(c.s, n)
    ensures Tally(c.run, Reading(n)) == Tally(old(c.run), Reading(n)) + |replies|
                                        + if stop == CommandFailed && fetches(|replies|).applied then 1 else 0
    ensures |replies| <= 20 && forall i :: 0 <= i < |replies| ==> replies[i] <= 10
    ensures forall i: nat :: i < |replies| - 1 ==> replies[i] > 0 && !CutShort(lucks(i), replies[i])
    ensures stop == CommandFailed ==> |replies| < 20 && fetches(|replies|) != ReadFate(true, true)
    ensures stop == Exhausted ==> |replies| == 20 || (replies != [] && replies[|replies| - 1] == 0)
    ensures stop == Cancelled ==> replies != [] && CutShort(lucks(|replies| - 1), replies[|replies| - 1])
    ensures stop != Cancelled ==> Tally(c.run, Taking(n)) == Tally(old(c.run), Taking(n)) + Sum(replies)
  {
    replies, stop := DrainLoop(c, n, fetches, lucks);
    assert forall i :: 0 <= i < |replies| - 1 ==> 0 < replies[i] <= 10;
  }

  /** The loop of drain. */
  method DrainLoop(c: Cluster, n: NodeId, fetches: nat -> ReadFate, lucks: nat -> nat -> Luck)
    returns (replies: seq<nat>, stop: Stop)
    requires c.Valid() && Ready(c.s, n)
    modifies c
    ensures c.Valid() && old(c.run) <= c.run && Ready(c.s, n)
    ensures Drained(fetches, lucks, replies, stop, Tally(c.run, Reading(n)) - Tally(old(c.run), Reading(n)),
                    Tally(c.run, Taking(n)) - Tally(old(c.run), Taking(n)))
  {
    replies, stop := [], Exhausted;
    ghost var times, taken: int := 0, 0;
    for i := 0 to MAX_DRAIN_BATCHES
      invariant c.Valid() && old(c.run) <= c.run && Ready(c.s, n) && |replies| == i
      invariant Draining(fetches, lucks, replies, times, taken)
      invariant times == Tally(c.run, Reading(n)) - Tally(old(c.run), Reading(n))
      invariant taken == Tally(c.run, Taking(n)) - Tally(old(c.run), Taking(n))
    {
      assert MAX_DRAIN_BATCHES == 20;
      ghost var before := Tally(c.run, Taking(n));
      var size: nat;
      size, stop := ReadAndHandle(c, n, fetches(i), lucks(i));
      if stop == CommandFailed {
        DrainFails(fetches, lucks, replies, times, taken);
        return;
      }
      DrainReads(fetches, lucks, replies, times, taken, size, Tally(c.run, Taking(n)) - before);
      times, taken := times + 1, taken + Tally(c.run, Taking(n)) - before;
      replies := replies + [size];
      if stop == Cancelled || size == 0 {
        return;
      }
    }
    stop := Exhausted;
  }

  /** One turn of drain: a read, and its messages. */
  method ReadAndHandle(c: Cluster, n: NodeId, fate: ReadFate, lucks: nat -> Luck) returns (size: nat, stop: Stop)
    requires c.Valid() && Ready(c.s, n)
    modifies c
    ensures c.Valid() && old(c.run) <= c.run && Ready(c.s, n) && size <= 10
    ensures stop == CommandFailed <==> fate != ReadFate(true, true)
    ensures Tally(c.run, Reading(n)) == Tally(old(c.run), Reading(n)) + if fate.applied then 1 else 0
    ensures stop == CommandFailed ==> Tally(c.run, Taking(n)) == Tally(old(c.run), Taking(n))
    ensures stop == Exhausted ==>
              Tally(c.run, Taking(n)) == Tally(old(c.run), Taking(n)) + size && !CutShort(lucks, size)
    ensures stop == Cancelled ==> CutShort(lucks, size)
  {
    var failed := ReadBatch(c, n, fate);
    size := |BatchIn(c.s.batches, n)|;
    if failed {
      return size, CommandFailed;
    }
    if size == 0 {
      return size, Exhausted;
    }
    var handled, cancelled := HandleBatch(c, n, lucks);
    stop := if cancelled then Cancelled else Exhausted;
  }

  /** XREADGROUP. If it fails, before or after taking effect, the node has no reply. */
  method ReadBatch(c: Cluster, n: NodeId, fate: ReadFate) returns (failed: bool)
    requires c.Valid() && Ready(c.s, n)
    modifies c
    ensures c.Valid() && old(c.run) <= c.run && PcIn(c.s.pcs, Dispatcher(n)).Idle? && n !in c.s.retired
    ensures |BatchIn(c.s.batches, n)| <= 10 && (failed ==> BatchIn(c.s.batches, n) == [])
    ensures failed <==> fate != ReadFate(true, true)
    ensures Tally(c.run, Taking(n)) == Tally(old(c.run), Taking(n))
    ensures Tally(c.run, Reading(n)) == Tally(old(c.run), Reading(n)) + if fate.applied then 1 else 0
  {
    c.Interfere(Dispatcher(n));
    assert READ_COUNT == 10;
    if fate.applied {
      c.Do(OnNode(n, Read(fate.seen)));
    }
    failed := !fate.applied || !fate.seen;
  }

  /** One round of reclaim: whatever XAUTOCLAIM hands over goes through the same handle. */
  method ReclaimRound(c: Cluster, n: NodeId, claimed: seq<EntryId>, seen: bool, lucks: nat -> Luck)
    returns (handled: nat, cancelled: bool)
    requires c.Valid() && Ready(c.s, n)
    modifies c
    ensures c.Valid() && old(c.run) <= c.run && Ready(c.s, n)
    ensures Tally(c.run, Taking(n)) == Tally(old(c.run), Taking(n)) + handled
    ensures handled == 0 || (seen && handled <= |claimed| && (handled < |claimed| ==> cancelled))
    ensures cancelled ==> handled > 0 && lucks(handled - 1).stops
    ensures Tally(c.run, Reading(n)) == Tally(old(c.run), Reading(n))
  {
    ClaimBatch(c, n, claimed, seen);
    handled, cancelled := HandleBatch(c, n, lucks);
  }

  /** XAUTOCLAIM. A reply Redis cannot give is taken for a failed command, which hands over nothing. */
  method ClaimBatch(c: Cluster, n: NodeId, claimed: seq<EntryId>, seen: bool)
    requires c.Valid() && Ready(c.s, n)
    modifies c
    ensures c.Valid() && old(c.run) <= c.run && PcIn(c.s.pcs, Dispatcher(n)).Idle? && n !in c.s.retired
    ensures BatchIn(c.s.batches, n) == [] || (seen && BatchIn(c.s.batches, n) == claimed)
    ensures Tally(c.run, Taking(n)) == Tally(old(c.run), Taking(n))
    ensures Tally(c.run, Reading(n)) == Tally(old(c.run), Reading(n))
  {
    c.Interfere(Dispatcher(n));
    if NodeEnabled(c.s, n, Reclaim(claimed, seen)) {
      c.Do(OnNode(n, Reclaim(claimed, seen)));
    }
  }

  /** The last command of a run, and the state it found. */
  ghost predicate EndsWith(s: State, pre: State, step: Step) {
    Reachable(pre) && Enabled(pre, step) && s == Apply(pre, step)
  }

  /** deleteConsumerIfDrained, as RemoveConsumer and ReapStaleConsumers use it: XPENDING, and only then
      XGROUP DELCONSUMER, each of which may go unanswered. If the consumer reads no more, the delete finds its
      PEL empty still, however much happened in between. It is left alone only if a command failed or XPENDING
      showed entries. */
  method DeleteConsumerIfDrained(c: Cluster, deleter: Actor, n: NodeId, listed: bool, answered: bool)
    returns (deleted: bool)
    requires c.Valid()
    modifies c
    ensures c.Valid() && old(c.run) <= c.run && old(c.s.retired) <= c.s.retired
    ensures forall v: NodeId :: v in old(c.s.retired) ==> Owned(c.s.group, v) <= Owned(old(c.s.group), v)
    ensures deleted ==>
              && listed && answered
              && (exists pre: State :: EndsWith(c.s, pre, OnNode(n, DelConsumer))
                                       && (n in old(c.s.retired) ==> Owned(pre.group, n) == {}))
    ensures !deleted ==> !listed || !answered || Owned(c.s.group, n) != {}
  {
    deleted := false;
    var drained := IsDrained(c, deleter, n, listed);
    if drained {
      deleted := DeleteConsumer(c, deleter, n, answered);
    }
  }

  /** XPENDING, which may fail. */
  method IsDrained(c: Cluster, deleter: Actor, n: NodeId, listed: bool) returns (drained: bool)
    requires c.Valid()
    modifies c
    ensures c.Valid() && old(c.run) <= c.run && old(c.s.retired) <= c.s.retired
    ensures forall v: NodeId :: v in old(c.s.retired) ==> Owned(c.s.group, v) <= Owned(old(c.s.group), v)
    ensures drained <==> listed && Owned(c.s.group, n) == {}
    ensures drained ==> n in c.s.probed
  {
    drained := false;
    c.Interfere(deleter);
    if listed && Owned(c.s.group, n) == {} {
      MarksStay(c.s, OnNode(n, Probe));
      c.Do(OnNode(n, Probe));
      drained := true;
    }
  }

  /** XGROUP DELCONSUMER, which may fail. */
  method DeleteConsumer(c: Cluster, deleter: Actor, n: NodeId, answered: bool) returns (deleted: bool)
    requires c.Valid() && n in c.s.probed && Owned(c.s.group, n) == {}
    modifies c
    ensures c.Valid() && old(c.run) <= c.run && old(c.s.retired) <= c.s.retired && deleted == answered
    ensures forall v: NodeId :: v in old(c.s.retired) ==> Owned(c.s.group, v) <= Owned(old(c.s.group), v)
    ensures deleted ==>
              (exists pre: State :: EndsWith(c.s, pre, OnNode(n, DelConsumer))
                                    && (n in old(c.s.retired) ==> Owned(pre.group, n) == {}))
  {
    deleted := answered;
    c.Interfere(deleter);
    if answered {
      ghost var pre := c.s;
      MarksStay(c.s, OnNode(n, DelConsumer));
      c.Do(OnNode(n, DelConsumer));
      DeletingAddsNothing(pre, n);
      assert EndsWith(c.s, pre, OnNode(n, DelConsumer));
    }
  }

  lemma DeletingAddsNothing(s: State, n: NodeId)
    requires NodeEnabled(s, n, DelConsumer)
    ensures forall v: NodeId :: Owned(ApplyNode(s, n, DelConsumer).group, v) <= Owned(s.group, v)
  {
  }

  /** One line of the XINFO CONSUMERS reply. */
  datatype Info = Info(name: NodeId, idle: nat, pending: nat)

  /** Line k of the reply shows a consumer, not this node's own, idle for five minutes with nothing pending; it is
      empty, reads no more, and its commands are answered. */
  ghost predicate MustGo(infos: seq<Info>, self: NodeId, k: nat, lists: nat -> bool, dels: nat -> bool, s: State)
    requires k < |infos|
  {
    && infos[k].name != self && infos[k].idle >= 300_000 && infos[k].pending == 0 && lists(k) && dels(k)
    && infos[k].name in s.retired && Owned(s.group, infos[k].name) == {}
  }

  /** ReapStaleConsumers, on whatever XINFO CONSUMERS replied; lists and dels say which XPENDING and DELCONSUMER
      are answered. It deletes only consumers the reply shows idle for five minutes with nothing pending (on these
      lines), never its own; if those read no more, each delete (pres has the states they found) drops an empty
      PEL; and every one that is empty and reads no more goes, unless a command fails. */
  method ReapStaleConsumers(c: Cluster, self: NodeId, infos: seq<Info>, lists: nat -> bool, dels: nat -> bool)
    returns (deleted: seq<NodeId>, ghost lines: seq<nat>, ghost pres: seq<State>)
    requires c.Valid()
    modifies c
    ensures c.Valid() && old(c.run) <= c.run && |pres| == |lines| == |deleted|
    ensures forall i :: 0 <= i < |deleted| ==>
              && lines[i] < |infos| && infos[lines[i]].name == deleted[i] && deleted[i] != self
              && infos[lines[i]].idle >= 300_000 && infos[lines[i]].pending == 0
    ensures forall i :: 0 <= i < |deleted| ==>
              Reachable(pres[i]) && Enabled(pres[i], OnNode(deleted[i], DelConsumer))
    ensures forall i :: 0 <= i < |deleted| && deleted[i] in old(c.s.retired) ==> Owned(pres[i].group, deleted[i]) == {}
    ensures forall k: nat :: k < |infos| && MustGo(infos, self, k, lists, dels, old(c.s)) ==> infos[k].name in deleted
  {
    deleted, lines, pres := ReapLines(c, self, infos, lists, dels);
  }

  /** What has been deleted after so many lines, of a reply received in state s. */
  ghost predicate Reaped(infos: seq<Info>, self: NodeId, lists: nat -> bool, dels: nat -> bool, s: State, upto: nat,
                         deleted: seq<NodeId>, lines: seq<nat>, pres: seq<State>) {
    && upto <= |infos| && |pres| == |lines| == |deleted|
    && (forall i :: 0 <= i < |deleted| ==>
          && lines[i] < |infos| && infos[lines[i]].name == deleted[i] && deleted[i] != self
          && infos[lines[i]].idle >= 300_000 && infos[lines[i]].pending == 0)
    && (forall i :: 0 <= i < |deleted| ==>
          Reachable(pres[i]) && Enabled(pres[i], OnNode(deleted[i], DelConsumer)))
    && (forall i :: 0 <= i < |deleted| && deleted[i] in s.retired ==> Owned(pres[i].group, deleted[i]) == {})
    && (forall k: nat :: k < upto && MustGo(infos, self, k, lists, dels, s) ==> infos[k].name in deleted)
  }

  lemma ReapedOneMore(infos: seq<Info>, self: NodeId, lists: nat -> bool, dels: nat -> bool, s: State, upto: nat,
                      deleted: seq<NodeId>, lines: seq<nat>, pres: seq<State>, pre: State)
    requires Reaped(infos, self, lists, dels, s, upto, deleted, lines, pres) && upto < |infos|
    ensures !MustGo(infos, self, upto, lists, dels, s) ==>
              Reaped(infos, self, lists, dels, s, upto + 1, deleted, lines, pres)
    ensures var n := infos[upto].name;
      && n != self && infos[upto].idle >= 300_000 && infos[upto].pending == 0 && Reachable(pre)
      && Enabled(pre, OnNode(n, DelConsumer)) && (n in s.retired ==> Owned(pre.group, n) == {}) ==>
        Reaped(infos, self, lists, dels, s, upto + 1, deleted + [n], lines + [upto], pres + [pre])
  {
    assert (deleted + [infos[upto].name])[|deleted|] == infos[upto].name;
  }

  method ReapLines(c: Cluster, self: NodeId, infos: seq<Info>, lists: nat -> bool, dels: nat -> bool)
    returns (deleted: seq<NodeId>, ghost lines: seq<nat>, ghost pres: seq<State>)
    requires c.Valid()
    modifies c
    ensures c.Valid() && old(c.run) <= c.run
    ensures Reaped(infos, self, lists, dels, old(c.s), |infos|, deleted, lines, pres)
  {
    deleted, lines, pres := [], [], [];
    for k := 0 to |infos|
      invariant c.Valid() && old(c.run) <= c.run && old(c.s.retired) <= c.s.retired
      invariant forall v: NodeId :: v in old(c.s.retired) ==> Owned(c.s.group, v) <= Owned(old(c.s.group), v)
      invariant Reaped(infos, self, lists, dels, old(c.s), k, deleted, lines, pres)
    {
      var gone; ghost var pre;
      gone, pre := ReapOne(c, self, infos[k], lists(k), dels(k));
      ReapedOneMore(infos, self, lists, dels, old(c.s), k, deleted, lines, pres, pre);
      if gone {
        deleted, lines, pres := deleted + [infos[k].name], lines + [k], pres + [pre];
      }
    }
  }

  /** One line of the reply. */
  method ReapOne(c: Cluster, self: NodeId, info: Info, listed: bool, answered: bool)
    returns (gone: bool, ghost pre: State)
    requires c.Valid()
    modifies c
    ensures c.Valid() && old(c.run) <= c.run && old(c.s.retired) <= c.s.retired
    ensures forall v: NodeId :: v in old(c.s.retired) ==> Owned(c.s.group, v) <= Owned(old(c.s.group), v)
    ensures gone ==> info.name != self && info.idle >= 300_000 && info.pending == 0
    ensures gone ==> Reachable(pre) && Enabled(pre, OnNode(info.name, DelConsumer))
    ensures gone && info.name in old(c.s.retired) ==> Owned(pre.group, info.name) == {}
    ensures (info.name != self && info.idle >= 300_000 && info.pending == 0 && listed && answered
             && info.name in old(c.s.retired) && Owned(old(c.s.group), info.name) == {}) ==> gone
  {
    gone, pre := false, c.s;
    if info.name == self || info.idle < REAP_MIN_IDLE || info.pending > 0 {
      return;
    }
    gone := DeleteConsumerIfDrained(c, Dispatcher(self), info.name, listed, answered);
    if gone {
      pre :| EndsWith(c.s, pre, OnNode(info.name, DelConsumer))
             && (info.name in old(c.s.retired) ==> Owned(pre.group, info.name) == {});
    }
  }
}
