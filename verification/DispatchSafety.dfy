/** What holds over every run of the dispatch protocol, overlapping stream owners, reverts and
    crashes included: a job is published to a receiver at most once, and its row only moves forward. */
module DispatchSafety {
  import opened Wrappers
  import opened StreamGroup
  import opened Protocol

  /** The claim discipline. A row lock is held exactly by the one actor inside the claim transaction,
      on a claimable row; a committed claim is a token held by one actor, on a row in dispatching that
      nobody has published. */
  ghost predicate ClaimInv(s: State) {
    TokensFit(s) && LocksFit(s) && forall j: JobId :: OwnJob(PcIn(s.pcs, Handler(j)), j)
  }

  ghost predicate TokensFit(s: State) {
    && (forall a: Actor, j: JobId {:trigger HasToken(PcIn(s.pcs, a), j)} :: HasToken(PcIn(s.pcs, a), j) ==>
          RowIn(s.rows, j) == Some(Dispatching) && CountIn(s.published, j) == 0)
    && (forall a: Actor, b: Actor, j: JobId {:trigger HasToken(PcIn(s.pcs, a), j), HasToken(PcIn(s.pcs, b), j)} ::
          HasToken(PcIn(s.pcs, a), j) && HasToken(PcIn(s.pcs, b), j) ==> a == b)
  }

  ghost predicate LocksFit(s: State) {
    && (forall j: JobId {:trigger j in s.locks} :: j in s.locks ==>
          InClaimTx(PcIn(s.pcs, s.locks[j]), j) && RowClaimable(s, j))
    && (forall a: Actor, j: JobId {:trigger InClaimTx(PcIn(s.pcs, a), j)} :: InClaimTx(PcIn(s.pcs, a), j) ==>
          j in s.locks && s.locks[j] == a)
  }

  /** A request handler only ever works on the job it submitted. */
  predicate OwnJob(pc: Pc, j: JobId) {
    !pc.Idle? && !pc.Garbled? && !pc.Replied? ==> pc.job == j
  }

  /** One job's row, publish count and printer link fit together. */
  predicate LinkFits(row: Option<Status>, published: nat, l: Link) {
    && published <= 1
    && (published == 0 ==> l == NoLink && (row.Some? ==> Rank(row.value) <= 1))
    && (published == 1 ==>
          && row.Some? && Rank(row.value) >= 1
          && l.inflight <= (if l.worker.NotStarted? then 1 else 0)
          && Ascending(Rank(row.value), l.wire)
          && (l.worker.NotStarted? || l.worker.Started? ==> Rank(row.value) == 1 && l.wire == [])
          && (l.worker.Working? ==> Rank(row.value) <= 2 && (l.wire == [] || l.wire == [Printing]))
          && (!l.hub.HubIdle? ==> row.value == l.hub.st)
          && DeliveredCount(l.audits) + (if l.hub == Applied(Delivered) then 1 else 0)
             <= (if row.value == Delivered then 1 else 0))
  }

  /** The frames on the wire climb strictly, starting above the row's rank. */
  predicate Ascending(floor: nat, wire: seq<Status>)
    decreases |wire|
  {
    wire == [] || (Rank(wire[0]) > floor && Ascending(Rank(wire[0]), wire[1..]))
  }

  function DeliveredCount(audits: seq<Status>): nat {
    if audits == [] then 0
    else DeliveredCount(audits[..|audits| - 1]) + (if audits[|audits| - 1] == Delivered then 1 else 0)
  }

  ghost predicate LinkInv(s: State) {
    forall j: JobId :: LinkFits(RowIn(s.rows, j), CountIn(s.published, j), LinkIn(s.links, j))
  }

  ghost predicate SafetyInv(s: State) {
    ClaimInv(s) && LinkInv(s)
  }

  // ----- the claim discipline is kept -----

  /** An actor may move freely as long as it neither gains a token nor enters or leaves a claim transaction. */
  lemma ActorMoves(s: State, s': State, a: Actor)
    requires ClaimInv(s)
    requires s'.rows == s.rows && s'.locks == s.locks && s'.published == s.published
    requires s'.pcs == s.pcs[a := PcIn(s'.pcs, a)]
    requires forall j: JobId :: HasToken(PcIn(s'.pcs, a), j) ==> HasToken(PcIn(s.pcs, a), j)
    requires forall j: JobId :: InClaimTx(PcIn(s'.pcs, a), j) <==> InClaimTx(PcIn(s.pcs, a), j)
    requires a.Handler? ==> OwnJob(PcIn(s'.pcs, a), a.job)
    ensures ClaimInv(s')
  {
    assert forall b: Actor :: b != a ==> PcIn(s'.pcs, b) == PcIn(s.pcs, b);
  }

  /** A row nobody is claiming, holds a token on, or has locked may change, and so may its publish count. */
  lemma RowMoves(s: State, s': State, k: JobId)
    requires ClaimInv(s)
    requires s'.locks == s.locks && s'.pcs == s.pcs
    requires forall j: JobId :: j != k ==>
               RowIn(s'.rows, j) == RowIn(s.rows, j) && CountIn(s'.published, j) == CountIn(s.published, j)
    requires k !in s.locks && forall a: Actor :: !HasToken(PcIn(s.pcs, a), k)
    ensures ClaimInv(s')
  {
    forall j | j in s.locks ensures RowClaimable(s', j) {
      assert RowClaimable(s, j) && RowIn(s'.rows, j) == RowIn(s.rows, j);
    }
  }

  lemma LockKeepsClaims(s: State, a: Actor)
    requires ClaimInv(s) && AttemptEnabled(s, a, Lock)
    ensures ClaimInv(ApplyAttempt(s, a, Lock))
  {
    var s' := ApplyAttempt(s, a, Lock);
    var j := PcIn(s.pcs, a).job;
    if RowClaimable(s, j) && j !in s.locks {
      assert s'.locks == s.locks[j := a];
      assert forall b: Actor :: PcIn(s'.pcs, b) == if b == a then Locked(j) else PcIn(s.pcs, b);
      assert forall b: Actor :: !InClaimTx(PcIn(s.pcs, b), j);
      assert forall k: JobId :: !InClaimTx(PcIn(s.pcs, a), k) && !HasToken(Locked(j), k);
    } else {
      ActorMoves(s, s', a);
    }
  }

  /** The new token is the only one: under the lock the row is still claimable, so nobody held one before. */
  lemma CommitKeepsTokens(s: State, a: Actor)
    requires SafetyInv(s) && AttemptEnabled(s, a, Commit)
    ensures TokensFit(ApplyAttempt(s, a, Commit))
  {
    var s' := ApplyAttempt(s, a, Commit);
    var j := PcIn(s.pcs, a).job;
    assert InClaimTx(PcIn(s.pcs, a), j) && j in s.locks;
    assert forall b: Actor :: b != a ==> PcIn(s'.pcs, b) == PcIn(s.pcs, b) && !HasToken(PcIn(s.pcs, b), j);
    assert PcIn(s'.pcs, a) == Claimed(j);
    assert LinkFits(RowIn(s.rows, j), CountIn(s.published, j), LinkIn(s.links, j));
  }

  lemma CommitKeepsLocks(s: State, a: Actor)
    requires ClaimInv(s) && AttemptEnabled(s, a, Commit)
    ensures LocksFit(ApplyAttempt(s, a, Commit))
  {
    var s' := ApplyAttempt(s, a, Commit);
    var j := PcIn(s.pcs, a).job;
    assert InClaimTx(PcIn(s.pcs, a), j) && j in s.locks;
    assert forall k: JobId :: k in s'.locks ==> k != j && k in s.locks && s.locks[k] == s'.locks[k] && s.locks[k] != a;
    forall b: Actor, k: JobId | InClaimTx(PcIn(s'.pcs, b), k) ensures k in s'.locks && s'.locks[k] == b {
      assert b != a && InClaimTx(PcIn(s.pcs, b), k);
    }
  }

  /** The end of a transaction without effect, be it an error return or a crash. */
  lemma UnlockKeepsClaims(s: State, a: Actor, at: Attempt)
    requires ClaimInv(s) && (at.GiveUp? || at.Crash?) && AttemptEnabled(s, a, at)
    ensures ClaimInv(ApplyAttempt(s, a, at))
  {
    var s' := ApplyAttempt(s, a, at);
    assert forall b: Actor :: b != a ==> PcIn(s'.pcs, b) == PcIn(s.pcs, b);
    assert forall k: JobId :: !HasToken(PcIn(s'.pcs, a), k) && !InClaimTx(PcIn(s'.pcs, a), k);
    forall b: Actor, k: JobId | InClaimTx(PcIn(s'.pcs, b), k) ensures k in s'.locks && s'.locks[k] == b {
      assert InClaimTx(PcIn(s.pcs, b), k);
    }
    forall k: JobId | k in s'.locks ensures InClaimTx(PcIn(s'.pcs, s'.locks[k]), k) && RowClaimable(s', k) {
      assert k in s.locks && s.locks[k] != a;
    }
  }

  /** Publishing and reverting both spend the one token of the job. */
  lemma SpendKeepsClaims(s: State, a: Actor, at: Attempt)
    requires ClaimInv(s) && (at.Publish? || at.Requeue?) && AttemptEnabled(s, a, at)
    ensures ClaimInv(ApplyAttempt(s, a, at))
  {
    var s' := ApplyAttempt(s, a, at);
    var j := PcIn(s.pcs, a).job;
    assert HasToken(PcIn(s.pcs, a), j);
    var mid := s'.(rows := s.rows, published := s.published);
    ActorMoves(s, mid, a);
    if s'.rows != s.rows || s'.published != s.published {
      forall b: Actor ensures !HasToken(PcIn(mid.pcs, b), j) {
        assert HasToken(PcIn(s.pcs, b), j) ==> b == a;
      }
      RowMoves(mid, s', j);
    }
  }

  lemma AttemptKeepsClaims(s: State, a: Actor, at: Attempt)
    requires SafetyInv(s) && AttemptEnabled(s, a, at)
    ensures ClaimInv(ApplyAttempt(s, a, at))
  {
    match at
    case Lock => LockKeepsClaims(s, a);
    case Commit => CommitKeepsTokens(s, a); CommitKeepsLocks(s, a);
    case GiveUp => UnlockKeepsClaims(s, a, at);
    case Crash => UnlockKeepsClaims(s, a, at);
    case Publish(_) => SpendKeepsClaims(s, a, at);
    case Requeue(_, _) => SpendKeepsClaims(s, a, at);
    case _ => ActorMoves(s, ApplyAttempt(s, a, at), a);
  }

  lemma NodeKeepsClaims(s: State, n: NodeId, ns: NodeStep)
    requires ClaimInv(s) && NodeEnabled(s, n, ns)
    ensures ClaimInv(ApplyNode(s, n, ns))
  {
    ActorMoves(s, ApplyNode(s, n, ns), Dispatcher(n));
  }

  lemma HandlerKeepsClaims(s: State, step: Step)
    requires SafetyInv(s) && Enabled(s, step) && (step.Submit? || step.Enqueue? || step.Answers?)
    ensures ClaimInv(Apply(s, step))
  {
    var s' := Apply(s, step);
    match step
    case Submit(ref) =>
      RowMoves(s, s.(rows := s'.rows), ref.jobId);
      ActorMoves(s.(rows := s'.rows), s', Handler(ref.jobId));
    case Enqueue(j, _, _) => ActorMoves(s, s', Handler(j));
    case Answers(j) => ActorMoves(s, s', Handler(j));
  }

  lemma LinkKeepsClaims(s: State, j: JobId, ls: LinkStep)
    requires SafetyInv(s) && Enabled(s, OnLink(j, ls))
    ensures ClaimInv(Apply(s, OnLink(j, ls)))
  {
    assert LinkFits(RowIn(s.rows, j), CountIn(s.published, j), LinkIn(s.links, j));
    if ls.HubApply? {
      RowMoves(s, Apply(s, OnLink(j, ls)), j);
    } else {
      assert Apply(s, OnLink(j, ls)).rows == s.rows;
    }
  }

  lemma StepKeepsClaims(s: State, step: Step)
    requires SafetyInv(s) && Enabled(s, step)
    ensures ClaimInv(Apply(s, step))
  {
    match step
    case Attempts(a, at) => AttemptKeepsClaims(s, a, at);
    case OnNode(n, ns) => NodeKeepsClaims(s, n, ns);
    case OnLink(j, ls) => LinkKeepsClaims(s, j, ls);
    case _ => HandlerKeepsClaims(s, step);
  }

  // ----- the printer link stays in step with the row -----

  lemma {:induction false} AscendingAppend(floor: nat, wire: seq<Status>, st: Status)
    requires Ascending(floor, wire)
    requires if wire == [] then Rank(st) > floor else Rank(st) > Rank(wire[|wire| - 1])
    ensures Ascending(floor, wire + [st])
    decreases |wire|
  {
    if wire != [] {
      assert (wire + [st])[1..] == wire[1..] + [st];
      AscendingAppend(Rank(wire[0]), wire[1..], st);
    }
  }

  lemma LinkStepFits(row: Option<Status>, published: nat, l: Link, ls: LinkStep)
    requires LinkFits(row, published, l) && LinkEnabled(row, l, ls)
    ensures LinkFits(RowNext(row, l, ls), published, LinkNext(row, l, ls))
  {
    match ls
    case SendPrinting(sent) => AscendingAppend(Rank(row.value), l.wire, Printing);
    case SendEnd(st, sent) => AscendingAppend(Rank(row.value), l.wire, st);
    case HubAudit(ok) => assert (l.audits + [l.hub.st])[..|l.audits|] == l.audits;
    case HubApply(applied, ok) => assert Ascending(Rank(l.wire[0]), l.wire[1..]);
    case _ =>
  }

  lemma AttemptKeepsLinks(s: State, a: Actor, at: Attempt)
    requires SafetyInv(s) && AttemptEnabled(s, a, at)
    ensures LinkInv(ApplyAttempt(s, a, at))
  {
    if at.Commit? || at.Publish? || at.Requeue? {
      var j := PcIn(s.pcs, a).job;
      assert InClaimTx(PcIn(s.pcs, a), j) || HasToken(PcIn(s.pcs, a), j);
      assert LinkFits(RowIn(s.rows, j), CountIn(s.published, j), LinkIn(s.links, j));
    }
  }

  lemma LinkKeepsLinks(s: State, j: JobId, ls: LinkStep)
    requires LinkInv(s) && LinkEnabled(RowIn(s.rows, j), LinkIn(s.links, j), ls)
    ensures LinkInv(ApplyLink(s, j, ls))
  {
    var s' := ApplyLink(s, j, ls);
    LinkStepFits(RowIn(s.rows, j), CountIn(s.published, j), LinkIn(s.links, j), ls);
    assert RowIn(s'.rows, j) == RowNext(RowIn(s.rows, j), LinkIn(s.links, j), ls);
    assert forall k: JobId :: k != j ==>
             RowIn(s'.rows, k) == RowIn(s.rows, k) && LinkIn(s'.links, k) == LinkIn(s.links, k);
  }

  lemma SubmitKeepsLinks(s: State, s': State, j: JobId)
    requires LinkInv(s) && j !in s.rows
    requires s'.rows == s.rows[j := Submitted] && s'.published == s.published && s'.links == s.links
    ensures LinkInv(s')
  {
    assert LinkFits(RowIn(s.rows, j), CountIn(s.published, j), LinkIn(s.links, j));
  }

  lemma StepKeepsLinks(s: State, step: Step)
    requires SafetyInv(s) && Enabled(s, step)
    ensures LinkInv(Apply(s, step))
  {
    match step
    case Submit(ref) => SubmitKeepsLinks(s, Apply(s, step), ref.jobId);
    case Enqueue(_, _, _) =>
    case Answers(_) =>
    case Attempts(a, at) => AttemptKeepsLinks(s, a, at);
    case OnNode(n, ns) =>
    case OnLink(j, ls) => LinkKeepsLinks(s, j, ls);
  }

  lemma {:induction false} RunKeepsSafety(s: State, run: seq<Step>)
    requires SafetyInv(s) && ValidRun(s, run)
    ensures SafetyInv(Exec(s, run))
    decreases |run|
  {
    if run != [] {
      StepKeepsClaims(s, run[0]);
      StepKeepsLinks(s, run[0]);
      RunKeepsSafety(Apply(s, run[0]), run[1..]);
    }
  }

  lemma ReachableIsSafe(s: State)
    requires Reachable(s)
    ensures SafetyInv(s)
  {
    var run: seq<Step> :| ValidRun(Init, run) && Exec(Init, run) == s;
    RunKeepsSafety(Init, run);
  }

  // ----- at most once -----

  /** The steps of a run that published j to at least one receiver. */
  ghost function PublishesOf(s: State, run: seq<Step>, j: JobId): nat
    requires ValidRun(s, run)
    decreases |run|
  {
    if run == [] then 0
    else
      (if run[0].Attempts? && run[0].at.Publish? && run[0].at.receivers > 0 && PcIn(s.pcs, run[0].actor).job == j
       then 1 else 0)
      + PublishesOf(Apply(s, run[0]), run[1..], j)
  }

  lemma {:induction false} PublishesAreCounted(s: State, run: seq<Step>, j: JobId)
    requires ValidRun(s, run)
    ensures CountIn(Exec(s, run).published, j) == CountIn(s.published, j) + PublishesOf(s, run, j)
    decreases |run|
  {
    if run != [] {
      PublishesAreCounted(Apply(s, run[0]), run[1..], j);
    }
  }

  /** Double-dispatch safety: over every run of any number of nodes, with any overlap of stream owners
      and any crashes, at most one publish of a job reaches a receiver. */
  lemma AtMostOnePublish(run: seq<Step>, j: JobId)
    requires ValidRun(Init, run)
    ensures PublishesOf(Init, run, j) <= 1
  {
    RunKeepsSafety(Init, run);
    PublishesAreCounted(Init, run, j);
    assert LinkFits(RowIn(Exec(Init, run).rows, j), CountIn(Exec(Init, run).published, j),
                    LinkIn(Exec(Init, run).links, j));
  }

  /** A row in dispatching that nobody has published has at most one claimer, and whoever is about to
      publish or revert is that claimer. */
  lemma OneClaimer(s: State, a: Actor, b: Actor, j: JobId)
    requires Reachable(s)
    requires HasToken(PcIn(s.pcs, a), j)
    ensures RowIn(s.rows, j) == Some(Dispatching) && CountIn(s.published, j) == 0
    ensures HasToken(PcIn(s.pcs, b), j) ==> a == b
    ensures !InClaimTx(PcIn(s.pcs, b), j)
  {
    ReachableIsSafe(s);
    assert j in s.locks ==> RowClaimable(s, j);
  }
}
