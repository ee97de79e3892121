/** The reclaim rule of NoLoss is not merely sufficient. From any state the discipline can produce, a reclaim
    that breaks the rule has a continuation that acknowledges a waiting job away, and then the job is lost for
    good. TimedLoss shows that the code's own timing lets it happen. */
module ReclaimRule {
  import opened Wrappers
  import opened JobRefs
  import opened StreamGroup
  import opened Protocol
  import opened DispatchSafety
  import opened QueueSafety
  import opened NoLoss

  /** The job still waits, yet its entry was acknowledged: the queue has forgotten it. */
  ghost predicate Forgotten(s: State, j: JobId) {
    RowClaimable(s, j) && exists e: EntryId :: IsEntry(s.group.log, e, j) && e in s.group.acked
  }

  // ----- building runs -----

  /** A step that neither reclaims nor starts to delete a consumer; the discipline asks nothing of it. */
  predicate Quiet(step: Step) {
    !(step.OnNode? && (step.ns.Reclaim? || step.ns.Probe?))
  }

  ghost predicate QuietRun(run: seq<Step>) {
    forall i :: 0 <= i < |run| ==> Quiet(run[i])
  }

  ghost predicate Leads(s: State, run: seq<Step>, t: State) {
    ValidRun(s, run) && Exec(s, run) == t && QuietRun(run)
  }

  ghost predicate CanReach(s: State, t: State) {
    exists run: seq<Step> :: Leads(s, run, t)
  }

  lemma Stay(s: State)
    ensures CanReach(s, s)
  {
    assert Leads(s, [], s);
  }

  /** Runs only visit reachable states, so the invariants of QueueSafety are there when they are needed. */
  lemma Extend(s: State, t: State, step: Step)
    requires CanReach(s, t) && Reachable(t) && Enabled(t, step) && Quiet(step)
    ensures CanReach(s, Apply(t, step)) && Reachable(Apply(t, step))
  {
    var run: seq<Step> :| Leads(s, run, t);
    var t' := Apply(t, step);
    assert [step][1..] == [] && ValidRun(t', []) && Exec(t', []) == t';
    RunAppend(s, run, [step]);
    assert Leads(s, run + [step], t');
    ExtendReachable(t, step);
  }

  lemma ExtendAttempt(s: State, t: State, a: Actor, at: Attempt) returns (u: State)
    requires CanReach(s, t) && Reachable(t) && AttemptEnabled(t, a, at)
    ensures u == ApplyAttempt(t, a, at) && CanReach(s, u) && Reachable(u)
  {
    Extend(s, t, Attempts(a, at));
    u := ApplyAttempt(t, a, at);
  }

  lemma ExtendNode(s: State, t: State, n: NodeId, ns: NodeStep) returns (u: State)
    requires CanReach(s, t) && Reachable(t) && NodeEnabled(t, n, ns) && !ns.Reclaim? && !ns.Probe?
    ensures u == ApplyNode(t, n, ns) && CanReach(s, u) && Reachable(u)
  {
    Extend(s, t, OnNode(n, ns));
    u := ApplyNode(t, n, ns);
  }

  lemma {:induction false} QuietRunsAreDisciplined(s: State, run: seq<Step>)
    requires ValidRun(s, run) && QuietRun(run)
    ensures DisciplinedRun(s, run)
    decreases |run|
  {
    if run != [] {
      assert Quiet(run[0]) && forall i :: 0 <= i < |run[1..]| ==> run[1..][i] == run[i + 1];
      QuietRunsAreDisciplined(Apply(s, run[0]), run[1..]);
    }
  }

  // ----- a node works through its batch without disturbing a job it does not have in hand -----

  /** Only dispatcher n moved, and nothing about j or the queue changed. */
  ghost predicate OnlyMoved(t: State, u: State, n: NodeId, j: JobId) {
    && u.group == t.group
    && RowIn(u.rows, j) == RowIn(t.rows, j)
    && (j in u.locks <==> j in t.locks)
    && (forall a: Actor :: a != Dispatcher(n) ==> PcIn(u.pcs, a) == PcIn(t.pcs, a))
    && (forall m: NodeId :: m != n ==> BatchIn(u.batches, m) == BatchIn(t.batches, m))
  }

  ghost predicate BusyWith(s: State, n: NodeId, j: JobId) {
    var pc := PcIn(s.pcs, Dispatcher(n));
    JobInHand(pc) == Some(j) && !pc.Returned?
  }

  /** The ways out of an attempt that change no row. */
  predicate WayOut(at: Attempt) {
    at == Check(false) || at == GiveUp || at == PublishFails || at == Requeue(false, false)
  }

  lemma WayOutStep(s: State, t: State, n: NodeId, at: Attempt, j: JobId) returns (u: State)
    requires CanReach(s, t) && Reachable(t) && !BusyWith(t, n, j)
    requires WayOut(at) && AttemptEnabled(t, Dispatcher(n), at)
    ensures CanReach(s, u) && Reachable(u) && OnlyMoved(t, u, n, j)
    ensures PcIn(u.pcs, Dispatcher(n)) == AttemptPc(t, Dispatcher(n), at) && u.batches == t.batches
  {
    u := ExtendAttempt(s, t, Dispatcher(n), at);
    if j in t.locks {
      ReachableIsSafe(t);
      assert InClaimTx(PcIn(t.pcs, t.locks[j]), j);
    }
  }

  /** Give up the attempt in hand: the eligibility check, the claim or the publish fails. */
  lemma AbandonAttempt(s: State, t: State, n: NodeId, j: JobId) returns (u: State)
    requires CanReach(s, t) && Reachable(t)
    requires JobInHand(PcIn(t.pcs, Dispatcher(n))).Some? && !BusyWith(t, n, j)
    ensures CanReach(s, u) && Reachable(u) && OnlyMoved(t, u, n, j)
    ensures PcIn(u.pcs, Dispatcher(n)).Returned? && u.batches == t.batches
    decreases if PcIn(t.pcs, Dispatcher(n)).Claimed? then 1 else 0
  {
    var pc := PcIn(t.pcs, Dispatcher(n));
    match pc
    case Returned(_, _) => u := t;
    case Trying(_) => u := WayOutStep(s, t, n, Check(false), j);
    case Claimed(_) =>
      var v := WayOutStep(s, t, n, PublishFails, j);
      u := AbandonAttempt(s, v, n, j);
    case Reverting(k, _) =>
      assert k !in t.locks by { ReachableIsSafe(t); assert HasToken(pc, k); }
      u := WayOutStep(s, t, n, Requeue(false, false), j);
    case _ => u := WayOutStep(s, t, n, GiveUp, j);
  }

  /** Be done with the message in hand. */
  lemma DropMessage(s: State, t: State, n: NodeId, j: JobId) returns (u: State)
    requires CanReach(s, t) && Reachable(t)
    requires BatchIn(t.batches, n) != [] && PcIn(t.pcs, Dispatcher(n)).Returned?
    ensures CanReach(s, u) && Reachable(u) && OnlyMoved(t, u, n, j)
    ensures PcIn(u.pcs, Dispatcher(n)).Idle? && BatchIn(u.batches, n) == BatchIn(t.batches, n)[1..]
  {
    var ns := if Acks(PcIn(t.pcs, Dispatcher(n))) then Ack(false) else Leave;
    u := ExtendNode(s, t, n, ns);
  }

  lemma TakeMessage(s: State, t: State, n: NodeId, j: JobId) returns (u: State)
    requires CanReach(s, t) && Reachable(t)
    requires BatchIn(t.batches, n) != [] && PcIn(t.pcs, Dispatcher(n)).Idle?
    ensures CanReach(s, u) && Reachable(u) && OnlyMoved(t, u, n, j)
    ensures BatchIn(u.batches, n) == BatchIn(t.batches, n)
    ensures PcIn(u.pcs, Dispatcher(n)).Trying?
    ensures IsEntry(t.group.log, BatchIn(t.batches, n)[0], PcIn(u.pcs, Dispatcher(n)).job)
  {
    assert TakenPc(t, BatchIn(t.batches, n)[0]).Trying?
        && IsEntry(t.group.log, BatchIn(t.batches, n)[0], TakenPc(t, BatchIn(t.batches, n)[0]).job) by {
      ReachableInv(t);
      TakeDecodes(t, n);
    }
    u := ExtendNode(s, t, n, Take);
  }

  /** Be done with the message in hand, or take the next one and be done with it. */
  lemma FinishMessage(s: State, t: State, n: NodeId, j: JobId) returns (u: State)
    requires CanReach(s, t) && Reachable(t)
    requires BatchIn(t.batches, n) != [] && !BusyWith(t, n, j)
    requires PcIn(t.pcs, Dispatcher(n)).Idle? ==> !IsEntry(t.group.log, BatchIn(t.batches, n)[0], j)
    ensures CanReach(s, u) && Reachable(u) && OnlyMoved(t, u, n, j)
    ensures PcIn(u.pcs, Dispatcher(n)).Idle? && BatchIn(u.batches, n) == BatchIn(t.batches, n)[1..]
  {
    u := t;
    assert DispatcherFits(t.group.log, BatchIn(t.batches, n), PcIn(t.pcs, Dispatcher(n))) by { ReachableInv(t); }
    if PcIn(t.pcs, Dispatcher(n)).Idle? {
      u := TakeMessage(s, t, n, j);
    }
    u := AbandonAttempt(s, u, n, j);
    u := DropMessage(s, u, n, j);
  }

  lemma TakeDecodes(t: State, n: NodeId)
    requires RunInv(t) && NodeEnabled(t, n, Take)
    ensures var e := BatchIn(t.batches, n)[0];
      TakenPc(t, e).Trying? && IsEntry(t.group.log, e, TakenPc(t, e).job)
  {
    assert BatchIn(t.batches, n)[0] in BatchIn(t.batches, n);
  }

  /** The only message that can put a dispatcher to work on j is e. */
  lemma HeadIsShared(t: State, n: NodeId, e: EntryId, j: JobId)
    requires Reachable(t) && IsEntry(t.group.log, e, j) && BatchIn(t.batches, n) != []
    ensures BusyWith(t, n, j) || IsEntry(t.group.log, BatchIn(t.batches, n)[0], j) ==> BatchIn(t.batches, n)[0] == e
  {
    ReachableInv(t);
    assert DispatcherFits(t.group.log, BatchIn(t.batches, n), PcIn(t.pcs, Dispatcher(n)));
  }

  /** Work through the batch up to e. */
  lemma {:induction false} AdvanceTo(s: State, t: State, n: NodeId, e: EntryId, j: JobId) returns (u: State)
    requires CanReach(s, t) && Reachable(t) && Holds(t, n, e) && IsEntry(t.group.log, e, j)
    ensures CanReach(s, u) && Reachable(u) && OnlyMoved(t, u, n, j)
    ensures BatchIn(u.batches, n) != [] && BatchIn(u.batches, n)[0] == e
    ensures PcIn(u.pcs, Dispatcher(n)).Idle? || (u == t && BusyWith(t, n, j))
    decreases |BatchIn(t.batches, n)|
  {
    var pc, batch := PcIn(t.pcs, Dispatcher(n)), BatchIn(t.batches, n);
    assert DispatcherFits(t.group.log, batch, pc) by { ReachableInv(t); }
    HeadIsShared(t, n, e, j);
    if batch[0] == e && (pc.Idle? || BusyWith(t, n, j)) {
      u := t;
    } else {
      var v := FinishMessage(s, t, n, j);
      u := AdvanceTo(s, v, n, e, j);
    }
  }

  // ----- two owners of one message -----

  /** Nobody but dispatcher m is busy with j. */
  ghost predicate OnlyOwner(s: State, m: NodeId, j: JobId) {
    forall a: Actor :: a != Dispatcher(m) && JobInHand(PcIn(s.pcs, a)) == Some(j) ==> PcIn(s.pcs, a).Returned?
  }

  /** The row is m's to claim, if m has not claimed it already. */
  ghost predicate MayClaim(t: State, m: NodeId, j: JobId) {
    RowClaimable(t, j) && (j in t.locks ==> t.locks[j] == Dispatcher(m))
  }

  lemma OwnerMayClaim(t: State, m: NodeId, j: JobId)
    requires RunInv(t) && OnlyOwner(t, m, j) && !Closed(t, j) && j in t.rows
    requires !HasToken(PcIn(t.pcs, Dispatcher(m)), j)
    ensures MayClaim(t, m, j)
  {
    assert forall a: Actor :: HasToken(PcIn(t.pcs, a), j) ==>
             JobInHand(PcIn(t.pcs, a)) == Some(j) && !PcIn(t.pcs, a).Returned?;
    if j in t.locks {
      assert InClaimTx(PcIn(t.pcs, t.locks[j]), j);
    }
  }

  function ClaimCommand(pc: Pc): Attempt {
    if pc.Trying? then Check(true) else if pc.Claiming? then Lock else if pc.Locked? then Mark else Commit
  }

  function Distance(pc: Pc): nat {
    match pc
    case Trying(_) => 4
    case Claiming(_) => 3
    case Locked(_) => 2
    case Marked(_) => 1
    case _ => 0
  }

  /** The owner takes the attempt one command closer to the claim. */
  lemma CloserToClaim(t: State, m: NodeId, j: JobId)
    requires MayClaim(t, m, j) && BusyWith(t, m, j) && !HasToken(PcIn(t.pcs, Dispatcher(m)), j)
    requires j in t.locks ==> InClaimTx(PcIn(t.pcs, Dispatcher(m)), j)
    ensures var a, at := Dispatcher(m), ClaimCommand(PcIn(t.pcs, Dispatcher(m)));
      && AttemptEnabled(t, a, at)
      && var u := ApplyAttempt(t, a, at);
      && BusyWith(u, m, j) && Distance(PcIn(u.pcs, a)) < Distance(PcIn(t.pcs, a))
      && (HasToken(PcIn(u.pcs, a), j) || MayClaim(u, m, j))
  {
  }

  /** One command on the way to the claim: whatever else happened, only m moved. */
  lemma StepToClaim(s: State, t: State, m: NodeId, j: JobId) returns (u: State)
    requires CanReach(s, t) && Reachable(t) && BusyWith(t, m, j)
    requires MayClaim(t, m, j) && !HasToken(PcIn(t.pcs, Dispatcher(m)), j)
    ensures CanReach(s, u) && Reachable(u) && BusyWith(u, m, j)
    ensures HasToken(PcIn(u.pcs, Dispatcher(m)), j) || MayClaim(u, m, j)
    ensures Distance(PcIn(u.pcs, Dispatcher(m))) < Distance(PcIn(t.pcs, Dispatcher(m)))
    ensures u.group == t.group && u.batches == t.batches
    ensures forall a: Actor :: a != Dispatcher(m) ==> PcIn(u.pcs, a) == PcIn(t.pcs, a)
  {
    var at := ClaimCommand(PcIn(t.pcs, Dispatcher(m)));
    assert j in t.locks ==> InClaimTx(PcIn(t.pcs, Dispatcher(m)), j) by { ReachableIsSafe(t); }
    CloserToClaim(t, m, j);
    u := ExtendAttempt(s, t, Dispatcher(m), at);
  }

  lemma {:induction false} ReachClaim(s: State, t: State, m: NodeId, j: JobId) returns (u: State)
    requires CanReach(s, t) && Reachable(t) && BusyWith(t, m, j)
    requires HasToken(PcIn(t.pcs, Dispatcher(m)), j) || MayClaim(t, m, j)
    ensures CanReach(s, u) && Reachable(u) && HasToken(PcIn(u.pcs, Dispatcher(m)), j)
    ensures u.group == t.group && u.batches == t.batches
    ensures forall a: Actor :: a != Dispatcher(m) ==> PcIn(u.pcs, a) == PcIn(t.pcs, a)
    decreases Distance(PcIn(t.pcs, Dispatcher(m)))
  {
    u := t;
    if !HasToken(PcIn(t.pcs, Dispatcher(m)), j) {
      u := StepToClaim(s, t, m, j);
      u := ReachClaim(s, u, m, j);
    }
  }

  lemma CheckPasses(s: State, t: State, n: NodeId, j: JobId) returns (u: State)
    requires CanReach(s, t) && Reachable(t) && PcIn(t.pcs, Dispatcher(n)) == Trying(j)
    ensures CanReach(s, u) && Reachable(u) && u == t.(pcs := t.pcs[Dispatcher(n) := Claiming(j)])
  {
    u := ExtendAttempt(s, t, Dispatcher(n), Check(true));
  }

  /** The other owner finds the row claimed and calls the job settled. */
  lemma FindSettled(s: State, t: State, n: NodeId, j: JobId) returns (u: State)
    requires CanReach(s, t) && Reachable(t) && PcIn(t.pcs, Dispatcher(n)) == Claiming(j) && !RowClaimable(t, j)
    ensures CanReach(s, u) && Reachable(u) && u == t.(pcs := t.pcs[Dispatcher(n) := Returned(j, Settled)])
  {
    u := ExtendAttempt(s, t, Dispatcher(n), Lock);
  }

  /** And so it acknowledges the shared entry. */
  lemma AckShared(s: State, t: State, n: NodeId, e: EntryId, j: JobId) returns (u: State)
    requires CanReach(s, t) && Reachable(t) && e < t.group.cursor && e !in t.group.discarded
    requires PcIn(t.pcs, Dispatcher(n)) == Returned(j, Settled)
    requires BatchIn(t.batches, n) != [] && BatchIn(t.batches, n)[0] == e
    ensures CanReach(s, u) && Reachable(u) && e in u.group.acked && u.group.log == t.group.log
    ensures forall a: Actor :: a != Dispatcher(n) ==> PcIn(u.pcs, a) == PcIn(t.pcs, a)
  {
    ReachableInv(t);
    AckConserves(t.group, e);
    u := ExtendNode(s, t, n, Ack(true));
  }

  /** The claimer's publish finds no receiver, so it reverts the row. */
  lemma RevertClaim(s: State, t: State, m: NodeId, j: JobId) returns (u: State)
    requires CanReach(s, t) && Reachable(t) && HasToken(PcIn(t.pcs, Dispatcher(m)), j)
    ensures CanReach(s, u) && Reachable(u) && u.group == t.group && RowClaimable(u, j)
  {
    var a := Dispatcher(m);
    u := t;
    if PcIn(u.pcs, a).Claimed? {
      u := ExtendAttempt(s, u, a, Publish(0));
    }
    assert j !in u.locks && j in u.rows by { ReachableIsSafe(u); assert HasToken(PcIn(u.pcs, a), j); }
    u := ExtendAttempt(s, u, a, Requeue(true, true));
  }

  /** The slower owner works up to the shared entry and takes it. */
  lemma OwnerTakes(s: State, t: State, m: NodeId, e: EntryId, j: JobId) returns (u: State)
    requires CanReach(s, t) && Reachable(t) && Holds(t, m, e) && IsEntry(t.group.log, e, j)
    requires !HasToken(PcIn(t.pcs, Dispatcher(m)), j) && MayClaim(t, m, j)
    requires forall a: Actor :: a != Dispatcher(m) ==> !InClaimTx(PcIn(t.pcs, a), j)
    ensures CanReach(s, u) && Reachable(u) && OnlyMoved(t, u, m, j) && BusyWith(u, m, j) && MayClaim(u, m, j)
  {
    u := AdvanceTo(s, t, m, e, j);
    if PcIn(u.pcs, Dispatcher(m)).Idle? {
      assert RowClaimable(u, j) && j !in u.locks by { ReachableInv(u); IdleOwnerMayClaim(t, u, m, j); }
      u := TakeMessage(s, u, m, j);
    }
  }

  /** And claims its job. */
  lemma OwnerClaims(s: State, t: State, m: NodeId, e: EntryId, j: JobId) returns (u: State)
    requires CanReach(s, t) && Reachable(t) && Holds(t, m, e) && IsEntry(t.group.log, e, j)
    requires OnlyOwner(t, m, j) && !Closed(t, j)
    ensures CanReach(s, u) && Reachable(u) && HasToken(PcIn(u.pcs, Dispatcher(m)), j)
    ensures u.group == t.group
    ensures forall a: Actor :: a != Dispatcher(m) ==> PcIn(u.pcs, a) == PcIn(t.pcs, a)
    ensures forall n: NodeId :: n != m ==> BatchIn(u.batches, n) == BatchIn(t.batches, n)
  {
    u := t;
    if !HasToken(PcIn(t.pcs, Dispatcher(m)), j) {
      assert MayClaim(t, m, j) by { ReachableInv(t); OwnerMayClaim(t, m, j); }
      assert forall a: Actor :: InClaimTx(PcIn(t.pcs, a), j) ==>
               JobInHand(PcIn(t.pcs, a)) == Some(j) && !PcIn(t.pcs, a).Returned?;
      var v := OwnerTakes(s, t, m, e, j);
      u := ReachClaim(s, v, m, j);
    }
  }

  lemma IdleOwnerMayClaim(t: State, v: State, m: NodeId, j: JobId)
    requires RunInv(v) && OnlyMoved(t, v, m, j) && MayClaim(t, m, j) && PcIn(v.pcs, Dispatcher(m)).Idle?
    requires forall a: Actor :: a != Dispatcher(m) ==> !InClaimTx(PcIn(t.pcs, a), j)
    ensures RowClaimable(v, j) && j !in v.locks
  {
    assert j in v.locks ==> InClaimTx(PcIn(v.pcs, v.locks[j]), j);
  }

  /** The other owner works up to the entry and takes it. */
  lemma OtherOwnerTakes(s: State, t: State, n: NodeId, e: EntryId, j: JobId) returns (u: State)
    requires CanReach(s, t) && Reachable(t) && Holds(t, n, e) && IsEntry(t.group.log, e, j)
    requires PcIn(t.pcs, Dispatcher(n)).Idle?
    ensures CanReach(s, u) && Reachable(u) && OnlyMoved(t, u, n, j)
    ensures PcIn(u.pcs, Dispatcher(n)) == Trying(j)
    ensures BatchIn(u.batches, n) != [] && BatchIn(u.batches, n)[0] == e
  {
    var v := AdvanceTo(s, t, n, e, j);
    u := TakeMessage(s, v, n, j);
  }

  /** Its job is claimed by now, so it calls it settled. */
  lemma OtherOwnerSettles(s: State, t: State, n: NodeId, e: EntryId, j: JobId) returns (u: State)
    requires CanReach(s, t) && Reachable(t) && Holds(t, n, e) && IsEntry(t.group.log, e, j)
    requires PcIn(t.pcs, Dispatcher(n)).Idle? && RowIn(t.rows, j) == Some(Dispatching)
    ensures CanReach(s, u) && Reachable(u) && OnlyMoved(t, u, n, j)
    ensures PcIn(u.pcs, Dispatcher(n)) == Returned(j, Settled)
    ensures BatchIn(u.batches, n) != [] && BatchIn(u.batches, n)[0] == e
  {
    var v := OtherOwnerTakes(s, t, n, e, j);
    var w := CheckPasses(s, v, n, j);
    u := FindSettled(s, w, n, j);
  }

  /** So it acknowledges the entry away. */
  lemma OtherOwnerAcks(s: State, t: State, n: NodeId, e: EntryId, j: JobId) returns (u: State)
    requires CanReach(s, t) && Reachable(t) && Holds(t, n, e) && IsEntry(t.group.log, e, j)
    requires e < t.group.cursor && e !in t.group.discarded
    requires PcIn(t.pcs, Dispatcher(n)).Idle? && RowIn(t.rows, j) == Some(Dispatching)
    ensures CanReach(s, u) && Reachable(u) && e in u.group.acked && u.group.log == t.group.log
    ensures forall a: Actor :: a != Dispatcher(n) ==> PcIn(u.pcs, a) == PcIn(t.pcs, a)
  {
    u := OtherOwnerSettles(s, t, n, e, j);
    u := AckShared(s, u, n, e, j);
  }

  /** Two dispatchers that both still hold a live job's entry can lose the job. */
  lemma OverlapForgets(s: State, m: NodeId, n: NodeId, e: EntryId, j: JobId) returns (u: State)
    requires Reachable(s) && m != n && IsEntry(s.group.log, e, j) && e < s.group.cursor && e !in s.group.discarded
    requires Holds(s, m, e) && Holds(s, n, e) && PcIn(s.pcs, Dispatcher(n)).Idle?
    requires OnlyOwner(s, m, j) && !Closed(s, j)
    ensures CanReach(s, u) && Forgotten(u, j)
  {
    Stay(s);
    var t := OwnerClaims(s, s, m, e, j);
    assert Holds(t, n, e);
    assert RowIn(t.rows, j) == Some(Dispatching) by { ReachableIsSafe(t); }
    t := OtherOwnerAcks(s, t, n, e, j);
    assert HasToken(PcIn(t.pcs, Dispatcher(m)), j);
    u := RevertClaim(s, t, m, j);
    assert IsEntry(u.group.log, e, j);
  }

  // ----- the reclaim rule is exact -----

  /** Whoever keeps the discipline from here on never forgets a job. */
  ghost predicate NeverForgets(s: State) {
    forall run: seq<Step>, j: JobId :: ValidRun(s, run) && DisciplinedRun(s, run) ==> !Forgotten(Exec(s, run), j)
  }

  lemma KeptJobsAreNotForgotten(s: State)
    requires Kept(s)
    ensures NeverForgets(s)
  {
    KeptInv(s);
    forall run: seq<Step>, j: JobId | ValidRun(s, run) && DisciplinedRun(s, run) ensures !Forgotten(Exec(s, run), j) {
      RunKeepsJobs(s, run);
    }
  }

  /** Before the reclaim only one dispatcher is busy with a live job that some dispatcher still holds. */
  lemma HolderIsOnlyOwner(s: State, m: NodeId, e: EntryId, j: JobId)
    requires KeepsJobs(s) && Holds(s, m, e) && IsEntry(s.group.log, e, j) && !Closed(s, j)
    ensures OnlyOwner(s, m, j)
  {
    forall a: Actor | a != Dispatcher(m) && JobInHand(PcIn(s.pcs, a)) == Some(j) ensures PcIn(s.pcs, a).Returned? {
      assert a.Handler? ==> OwnJob(PcIn(s.pcs, Handler(a.job)), a.job);
      BusyHolds(s, if a.Dispatcher? then a.node else m, j);
    }
  }

  lemma OverlapAfterReclaim(s: State, n: NodeId, claimed: seq<EntryId>, m: NodeId, e: EntryId, j: JobId)
    requires Kept(s) && NodeEnabled(s, n, Reclaim(claimed, true))
    requires m != n && e in claimed && Holds(s, m, e) && IsEntry(s.group.log, e, j) && !Closed(s, j)
    ensures var s' := ApplyNode(s, n, Reclaim(claimed, true));
      && Reachable(s') && OnlyOwner(s', m, j) && !Closed(s', j) && Holds(s', m, e) && Holds(s', n, e)
      && IsEntry(s'.group.log, e, j) && e < s'.group.cursor && s'.group.discarded == {}
  {
    var s' := ApplyNode(s, n, Reclaim(claimed, true));
    assert OnlyOwner(s, m, j) && e < s.group.cursor && s.group.discarded == {} && Reachable(s) by {
      KeptInv(s);
      HolderIsOnlyOwner(s, m, e, j);
      HeldIsRead(s, m, e);
    }
    ExtendReachable(s, OnNode(n, Reclaim(claimed, true)));
    assert forall a: Actor :: PcIn(s'.pcs, a) == PcIn(s.pcs, a);
  }

  /** A reclaim that takes a live job's message from a dispatcher that will still handle it can lose the job. */
  lemma BadReclaimForgets(s: State, n: NodeId, claimed: seq<EntryId>)
    requires Kept(s) && NodeEnabled(s, n, Reclaim(claimed, true)) && !OwnersAreDone(s, n, claimed)
    ensures !NeverForgets(ApplyNode(s, n, Reclaim(claimed, true)))
  {
    var m: NodeId, e: EntryId, j: JobId :|
      m != n && e in claimed && Holds(s, m, e) && IsEntry(s.group.log, e, j) && !Closed(s, j);
    OverlapAfterReclaim(s, n, claimed, m, e, j);
    var s' := ApplyNode(s, n, Reclaim(claimed, true));
    var u := OverlapForgets(s', m, n, e, j);
    ForgetfulRun(s', u, j);
  }

  lemma ForgetfulRun(s: State, u: State, j: JobId)
    requires CanReach(s, u) && Forgotten(u, j)
    ensures !NeverForgets(s)
  {
    var run: seq<Step> :| Leads(s, run, u);
    QuietRunsAreDisciplined(s, run);
    assert ValidRun(s, run) && DisciplinedRun(s, run) && Forgotten(Exec(s, run), j);
  }

  /** The reclaim rule is exact. Whatever disciplined run led to s: an XAUTOCLAIM keeps every queued job
      safe for good if and only if no other dispatcher will still handle one of the messages it takes,
      live jobs considered. */
  lemma ReclaimRuleIsExact(s: State, n: NodeId, claimed: seq<EntryId>)
    requires Kept(s) && NodeEnabled(s, n, Reclaim(claimed, true))
    ensures OwnersAreDone(s, n, claimed) <==> NeverForgets(ApplyNode(s, n, Reclaim(claimed, true)))
  {
    if OwnersAreDone(s, n, claimed) {
      KeptStep(s, OnNode(n, Reclaim(claimed, true)));
      KeptJobsAreNotForgotten(ApplyNode(s, n, Reclaim(claimed, true)));
    } else {
      BadReclaimForgets(s, n, claimed);
    }
  }

  // ----- a lost job stays lost -----

  /** Forgotten, and no dispatcher holds the entry any more. */
  ghost predicate Lost(s: State, j: JobId) {
    Forgotten(s, j) && forall n: NodeId, e: EntryId :: Holds(s, n, e) ==> !IsEntry(s.group.log, e, j)
  }

  lemma LostStays(s: State, step: Step, j: JobId)
    requires RunInv(s) && Lost(s, j) && Enabled(s, step)
    ensures Lost(Apply(s, step), j)
  {
    var e: EntryId :| IsEntry(s.group.log, e, j) && e in s.group.acked;
    ForgottenStays(s, step, e, j);
    forall n: NodeId, f: EntryId | Holds(Apply(s, step), n, f) ensures !IsEntry(Apply(s, step).group.log, f, j) {
      HeldGrows(s, step, n, f);
      OneEntryStays(s, step, e, f, j);
    }
  }

  lemma ForgottenStays(s: State, step: Step, e: EntryId, j: JobId)
    requires RunInv(s) && Lost(s, j) && Enabled(s, step) && IsEntry(s.group.log, e, j) && e in s.group.acked
    ensures Forgotten(Apply(s, step), j)
  {
    var s' := Apply(s, step);
    assert RowClaimable(s', j) by { LostRowStays(s, step, e, j); }
    assert e in s'.group.acked by { AckedStays(s, step, e); }
    assert IsEntry(s'.group.log, e, j) by { OneEntryStays(s, step, e, e, j); }
  }

  lemma OneEntryStays(s: State, step: Step, e: EntryId, f: EntryId, j: JobId)
    requires RunInv(s) && Enabled(s, step) && IsEntry(s.group.log, e, j)
    ensures IsEntry(Apply(s, step).group.log, f, j) <==> e == f
  {
    StepKeepsRunInv(s, step);
    EntryStays(s, step, e, j);
  }

  lemma AckedStays(s: State, step: Step, e: EntryId)
    requires RunInv(s) && Enabled(s, step) && e in s.group.acked
    ensures e in Apply(s, step).group.acked
  {
  }

  lemma LostRowStays(s: State, step: Step, e: EntryId, j: JobId)
    requires RunInv(s) && Lost(s, j) && Enabled(s, step) && IsEntry(s.group.log, e, j)
    ensures RowIn(Apply(s, step).rows, j) == RowIn(s.rows, j)
  {
    match step
    case Attempts(a, at) => AttemptKeepsLostRow(s, a, at, e, j);
    case OnLink(k, ls) => LinkKeepsLostRow(s, k, ls, j);
    case _ =>
  }

  /** No frame is about a job that still waits. */
  lemma LinkKeepsLostRow(s: State, k: JobId, ls: LinkStep, j: JobId)
    requires LinkInv(s) && Enabled(s, OnLink(k, ls)) && RowClaimable(s, j)
    ensures RowIn(Apply(s, OnLink(k, ls)).rows, j) == RowIn(s.rows, j)
  {
    assert LinkFits(RowIn(s.rows, k), CountIn(s.published, k), LinkIn(s.links, k));
  }

  lemma AttemptKeepsLostRow(s: State, a: Actor, at: Attempt, e: EntryId, j: JobId)
    requires RunInv(s) && Lost(s, j) && AttemptEnabled(s, a, at) && IsEntry(s.group.log, e, j)
    ensures RowIn(AttemptRows(s, a, at), j) == RowIn(s.rows, j)
  {
    NobodyHasLostInHand(s, a, e, j);
  }

  lemma NobodyHasLostInHand(s: State, a: Actor, e: EntryId, j: JobId)
    requires RunInv(s) && Lost(s, j) && IsEntry(s.group.log, e, j)
    ensures JobInHand(PcIn(s.pcs, a)) == Some(j) ==> PcIn(s.pcs, a).Returned?
  {
    assert a.Handler? ==> OwnJob(PcIn(s.pcs, Handler(a.job)), a.job);
    if a.Dispatcher? {
      var batch := BatchIn(s.batches, a.node);
      assert DispatcherFits(s.group.log, batch, PcIn(s.pcs, a));
      assert batch != [] && !PcIn(s.pcs, a).Returned? ==> Holds(s, a.node, batch[0]);
    }
  }

  /** A lost job stays lost: along every continuation its row waits, and it is never published. */
  lemma {:induction false} LostForever(s: State, run: seq<Step>, j: JobId)
    requires Reachable(s) && Lost(s, j) && ValidRun(s, run)
    ensures Lost(Exec(s, run), j) && RowIn(Exec(s, run).rows, j) == RowIn(s.rows, j)
    ensures CountIn(Exec(s, run).published, j) == 0
    decreases |run|
  {
    ReachableInv(s);
    assert LinkFits(RowIn(s.rows, j), CountIn(s.published, j), LinkIn(s.links, j));
    if run != [] {
      var e: EntryId :| IsEntry(s.group.log, e, j) && e in s.group.acked;
      LostRowStays(s, run[0], e, j);
      LostStays(s, run[0], j);
      ExtendReachable(s, run[0]);
      LostForever(Apply(s, run[0]), run[1..], j);
    }
  }
}
