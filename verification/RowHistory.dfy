/** What the jobs table goes through over a run: claims behave as compare-and-sets, the unconditional
    updates as guarded ones, and after the one publish a row only moves forward. */
module RowHistory {
  import opened Wrappers
  import opened JobRefs
  import opened StreamGroup
  import opened Protocol
  import opened DispatchSafety

  // ----- the jobs table as a table of compare-and-set cells -----

  /** The table a reader would like to reason about: every update names the status it replaces. */
  datatype CasStep =
    | Stutter
    | Insert(job: JobId)                                  // no row -> submitted
    | Claim(job: JobId)                                   // submitted or queued -> dispatching
    | Release(job: JobId)                                 // dispatching -> queued
    | Report(job: JobId, was: Status, now: Status)        // was -> a later status

  ghost predicate CasNext(rows: map<JobId, Status>, rows': map<JobId, Status>, c: CasStep) {
    match c
    case Stutter => rows' == rows
    case Insert(j) => j !in rows && rows' == rows[j := Submitted]
    case Claim(j) => j in rows && Claimable(rows[j]) && rows' == rows[j := Dispatching]
    case Release(j) => j in rows && rows[j] == Dispatching && rows' == rows[j := Queued]
    case Report(j, was, now) =>
      j in rows && rows[j] == was && !Claimable(was) && Rank(was) < Rank(now) && rows' == rows[j := now]
  }

  /** The table update a protocol step amounts to. LockJobForDispatch and MarkJobDispatching stutter:
      the claim takes effect at COMMIT, in one piece. */
  function CasOf(s: State, step: Step): CasStep {
    match step
    case Submit(ref) => Insert(ref.jobId)
    case Attempts(a, at) =>
      if at.Commit? && PcIn(s.pcs, a).Marked? then Claim(PcIn(s.pcs, a).job)
      else if at.Requeue? && at.applied && PcIn(s.pcs, a).Reverting? then Release(PcIn(s.pcs, a).job)
      else Stutter
    case OnLink(j, ls) =>
      if ls.HubApply? && ls.applied && LinkIn(s.links, j).wire != [] && j in s.rows then
        Report(j, s.rows[j], LinkIn(s.links, j).wire[0])
      else
        Stutter
    case _ => Stutter
  }

  lemma AttemptRefinesCas(s: State, a: Actor, at: Attempt)
    requires SafetyInv(s) && AttemptEnabled(s, a, at)
    ensures CasNext(s.rows, ApplyAttempt(s, a, at).rows, CasOf(s, Attempts(a, at)))
  {
    if at.Commit? || at.Requeue? {
      var j := PcIn(s.pcs, a).job;
      assert at.Commit? ==> InClaimTx(PcIn(s.pcs, a), j) && j in s.locks;
      assert at.Requeue? ==> HasToken(PcIn(s.pcs, a), j);
    }
  }

  lemma StepRefinesCas(s: State, step: Step)
    requires SafetyInv(s) && Enabled(s, step)
    ensures CasNext(s.rows, Apply(s, step).rows, CasOf(s, step))
  {
    match step
    case Submit(_) =>
    case Enqueue(_, _, _) =>
    case Answers(_) =>
    case Attempts(a, at) => AttemptRefinesCas(s, a, at);
    case OnNode(n, ns) =>
    case OnLink(j, ls) =>
      assert LinkFits(RowIn(s.rows, j), CountIn(s.published, j), LinkIn(s.links, j));
  }

  /** Lock, mark and commit refine one compare-and-set, and the unconditional RequeueJob and
      UpdateJobStatus only ever run where their guarded versions would have succeeded too. */
  lemma TableRefinesCompareAndSet(s: State, step: Step)
    requires Reachable(s) && Enabled(s, step)
    ensures CasNext(s.rows, Apply(s, step).rows, CasOf(s, step))
  {
    ReachableIsSafe(s);
    StepRefinesCas(s, step);
  }

  /** What LockJobForDispatch can answer: claimSettled exactly on a row that is not claimable, claimLost
      exactly while another actor is inside its claim transaction of the same job. */
  lemma ClaimAnswers(s: State, a: Actor)
    requires Reachable(s) && AttemptEnabled(s, a, Lock)
    ensures var j := PcIn(s.pcs, a).job;
      && (AttemptPc(s, a, Lock) == Returned(j, Settled) <==> !RowClaimable(s, j))
      && (AttemptPc(s, a, Lock) == Returned(j, Blocked) <==> exists b: Actor :: b != a && InClaimTx(PcIn(s.pcs, b), j))
      && (AttemptPc(s, a, Lock) == Locked(j) <==> RowClaimable(s, j) && j !in s.locks)
  {
    ReachableIsSafe(s);
    var j := PcIn(s.pcs, a).job;
    if j in s.locks {
      assert InClaimTx(PcIn(s.pcs, s.locks[j]), j);
    }
  }

  /** The committed claims of j in a run, and the reverts of j that took effect. */
  ghost function Count(s: State, run: seq<Step>, c: CasStep): nat
    requires ValidRun(s, run)
    decreases |run|
  {
    if run == [] then 0
    else (if CasOf(s, run[0]) == c then 1 else 0) + Count(Apply(s, run[0]), run[1..], c)
  }

  function Taken(row: Option<Status>): nat {
    if row.Some? && !Claimable(row.value) then 1 else 0
  }

  /** Claims and reverts of a job alternate, starting with a claim: a run has as many of each, plus one
      open claim while the row is past submitted and queued. Every prefix of a run is a run, so between
      two claims of one job there is always a revert of it. */
  lemma {:induction false} ClaimsAndRevertsAlternate(s: State, run: seq<Step>, j: JobId)
    requires SafetyInv(s) && ValidRun(s, run)
    ensures Taken(RowIn(s.rows, j)) + Count(s, run, Claim(j))
         == Taken(RowIn(Exec(s, run).rows, j)) + Count(s, run, Release(j))
    decreases |run|
  {
    if run != [] {
      var step := run[0];
      StepKeepsClaims(s, step);
      StepKeepsLinks(s, step);
      StepRefinesCas(s, step);
      CasTakesOrReleases(s.rows, Apply(s, step).rows, CasOf(s, step), j);
      ClaimsAndRevertsAlternate(Apply(s, step), run[1..], j);
    }
  }

  lemma CasTakesOrReleases(rows: map<JobId, Status>, rows': map<JobId, Status>, c: CasStep, j: JobId)
    requires CasNext(rows, rows', c)
    ensures var row, row' := RowIn(rows, j), RowIn(rows', j);
      if c == Claim(j) then Taken(row) == 0 && Taken(row') == 1
      else if c == Release(j) then Taken(row) == 1 && Taken(row') == 0
      else Taken(row') == Taken(row)
  {
  }

  // ----- forward only, after the publish -----

  predicate Forward(row: Option<Status>, row': Option<Status>) {
    row.Some? && row'.Some? && (row' == row || Rank(row.value) < Rank(row'.value))
  }

  lemma StepMovesForward(s: State, step: Step, j: JobId)
    requires SafetyInv(s) && Enabled(s, step) && CountIn(s.published, j) == 1
    ensures CountIn(Apply(s, step).published, j) == 1
    ensures Forward(RowIn(s.rows, j), RowIn(Apply(s, step).rows, j))
  {
    assert LinkFits(RowIn(s.rows, j), CountIn(s.published, j), LinkIn(s.links, j));
    match step
    case Attempts(a, at) =>
      var k := if at.Commit? || at.Publish? || at.Requeue? then PcIn(s.pcs, a).job else "";
      assert at.Commit? ==> InClaimTx(PcIn(s.pcs, a), k) && RowClaimable(s, k);
      assert at.Publish? || at.Requeue? ==> HasToken(PcIn(s.pcs, a), k);
      assert LinkFits(RowIn(s.rows, k), CountIn(s.published, k), LinkIn(s.links, k));
    case OnNode(n, ns) =>
    case _ =>
  }

  /** Once a publish of j has reached a receiver its row never goes back: along every continuation of
      every run it climbs dispatching, printing, delivered or failed, and a terminal status is final. */
  lemma {:induction false} StatusNeverGoesBack(s: State, run: seq<Step>, j: JobId)
    requires SafetyInv(s) && ValidRun(s, run) && CountIn(s.published, j) == 1
    ensures Forward(RowIn(s.rows, j), RowIn(Exec(s, run).rows, j))
    ensures RowIn(Exec(s, run).rows, j).value in {Dispatching, Printing, Delivered, Failed}
    ensures RowIn(s.rows, j) == Some(Printing) ==> RowIn(Exec(s, run).rows, j) != Some(Dispatching)
    ensures RowIn(s.rows, j) == Some(Delivered) ==> RowIn(Exec(s, run).rows, j) == Some(Delivered)
    ensures RowIn(s.rows, j) == Some(Failed) ==> RowIn(Exec(s, run).rows, j) == Some(Failed)
    decreases |run|
  {
    assert LinkFits(RowIn(s.rows, j), CountIn(s.published, j), LinkIn(s.links, j));
    if run != [] {
      StepMovesForward(s, run[0], j);
      StepKeepsClaims(s, run[0]);
      StepKeepsLinks(s, run[0]);
      StatusNeverGoesBack(Apply(s, run[0]), run[1..], j);
    }
  }

  /** A terminal or printing row was published, so it is one of those StatusNeverGoesBack speaks about. */
  lemma ProgressMeansPublished(s: State, j: JobId)
    requires Reachable(s) && RowIn(s.rows, j).Some? && RowIn(s.rows, j).value in {Printing, Delivered, Failed}
    ensures CountIn(s.published, j) == 1
  {
    ReachableIsSafe(s);
    assert LinkFits(RowIn(s.rows, j), CountIn(s.published, j), LinkIn(s.links, j));
  }

  /** At most one job_delivered audit row is ever written for a job, and only for a delivered one. */
  lemma OneDeliveredAudit(s: State, j: JobId)
    requires Reachable(s)
    ensures DeliveredCount(LinkIn(s.links, j).audits) <= (if RowIn(s.rows, j) == Some(Delivered) then 1 else 0)
  {
    ReachableIsSafe(s);
    assert LinkFits(RowIn(s.rows, j), CountIn(s.published, j), LinkIn(s.links, j));
  }

  // ----- blobs -----

  predicate DeliveredWith(s: State, j: JobId, blob: string) {
    j in s.refs && s.refs[j].blobRef == blob && RowIn(s.rows, j) == Some(Delivered)
  }

  ghost predicate BlobInv(s: State) {
    && (forall j: JobId :: j in s.refs ==> j in s.rows)
    && (forall b: string :: b in s.deleted ==> exists j: JobId :: DeliveredWith(s, j, b))
  }

  /** Rows are never removed and references never change; only the hub's delete touches a blob. */
  lemma StepKeepsRefs(s: State, step: Step)
    requires (forall j: JobId :: j in s.refs ==> j in s.rows) && Enabled(s, step)
    ensures var s' := Apply(s, step);
      && (forall j: JobId :: j in s'.refs ==> j in s'.rows)
      && (forall j: JobId :: j in s.refs ==> j in s'.refs && s'.refs[j] == s.refs[j])
      && (forall b: string :: b in s'.deleted && b !in s.deleted ==>
            step.OnLink? && step.ls.HubFinish? && LinkIn(s.links, step.job).hub.st == Delivered
            && step.job in s.refs && s.refs[step.job].blobRef == b)
  {
    match step
    case Attempts(a, at) =>
    case OnNode(n, ns) =>
    case OnLink(j, ls) =>
    case _ =>
  }

  lemma DeliveredStays(s: State, step: Step, j: JobId, b: string)
    requires SafetyInv(s) && BlobInv(s) && Enabled(s, step) && DeliveredWith(s, j, b)
    ensures DeliveredWith(Apply(s, step), j, b)
  {
    StepKeepsRefs(s, step);
    assert LinkFits(RowIn(s.rows, j), CountIn(s.published, j), LinkIn(s.links, j));
    StepMovesForward(s, step, j);
  }

  /** The hub deletes a blob only while its job's row says delivered. */
  lemma DeletedIsDelivered(s: State, j: JobId, ls: LinkStep)
    requires SafetyInv(s) && Enabled(s, OnLink(j, ls)) && ls.HubFinish?
    requires j in s.refs && LinkIn(s.links, j).hub.st == Delivered
    ensures DeliveredWith(s, j, s.refs[j].blobRef)
  {
    assert LinkFits(RowIn(s.rows, j), CountIn(s.published, j), LinkIn(s.links, j));
  }

  lemma StepKeepsBlobs(s: State, step: Step)
    requires SafetyInv(s) && BlobInv(s) && Enabled(s, step)
    ensures BlobInv(Apply(s, step))
  {
    StepKeepsRefs(s, step);
    forall b: string | b in Apply(s, step).deleted ensures exists j: JobId :: DeliveredWith(Apply(s, step), j, b) {
      if b !in s.deleted {
        DeletedIsDelivered(s, step.job, step.ls);
      }
      var j: JobId :| DeliveredWith(s, j, b);
      DeliveredStays(s, step, j, b);
    }
  }

  lemma {:induction false} RunKeepsBlobs(s: State, run: seq<Step>)
    requires SafetyInv(s) && BlobInv(s) && ValidRun(s, run)
    ensures BlobInv(Exec(s, run))
    decreases |run|
  {
    if run != [] {
      StepKeepsBlobs(s, run[0]);
      StepKeepsClaims(s, run[0]);
      StepKeepsLinks(s, run[0]);
      RunKeepsBlobs(Apply(s, run[0]), run[1..]);
    }
  }

  /** No blob is deleted while its job is undelivered, as long as no two jobs name the same blob. */
  lemma BlobsOutliveTheirJobs(s: State, j: JobId)
    requires Reachable(s) && j in s.refs
    requires forall k: JobId, l: JobId ::
               k in s.refs && l in s.refs && s.refs[k].blobRef == s.refs[l].blobRef ==> k == l
    ensures s.refs[j].blobRef in s.deleted ==> RowIn(s.rows, j) == Some(Delivered)
  {
    var run: seq<Step> :| ValidRun(Init, run) && Exec(Init, run) == s;
    RunKeepsBlobs(Init, run);
    if s.refs[j].blobRef in s.deleted {
      var k: JobId :| DeliveredWith(s, k, s.refs[j].blobRef);
    }
  }
}
