/** How the hub applies a printer's status frame (link/hub.go, onStatus and deleteDeliveredBlob), command by
    command while everybody else goes on. */
module HubCode {
  import opened Wrappers
  import opened Protocol
  import opened DispatchSafety
  import opened RowHistory
  import opened DispatchCode
  import StatusRelay

  /** The steps of the one read loop that handles the frames of job j. */
  predicate ByHub(step: Step, j: JobId) {
    step.OnLink? && step.job == j
    && (step.ls.HubApply? || step.ls.HubAudit? || step.ls.HubRelay? || step.ls.HubFinish? || step.ls.HubDies?)
  }

  function HubOf(s: State, j: JobId): HubStage {
    LinkIn(s.links, j).hub
  }

  function AuditsOf(s: State, j: JobId): seq<Status> {
    LinkIn(s.links, j).audits
  }

  lemma OthersLeaveHubAlone(s: State, step: Step, j: JobId)
    requires Enabled(s, step) && !ByHub(step, j)
    ensures HubOf(Apply(s, step), j) == HubOf(s, j) && AuditsOf(Apply(s, step), j) == AuditsOf(s, j)
  {
    match step
    case Attempts(a, at) =>
    case OnNode(n, ns) =>
    case OnLink(k, ls) =>
    case _ =>
  }

  /** Between these places in the run the hub did nothing about job j. */
  ghost predicate Untouched(run: seq<Step>, from: nat, upto: nat, j: JobId) {
    forall i :: from <= i < upto && i < |run| ==> !ByHub(run[i], j)
  }

  /** Everybody but this read loop takes whatever steps they like. */
  method Interfere(c: Cluster, j: JobId)
    requires c.Valid()
    modifies c
    ensures c.Valid() && old(c.run) <= c.run
    ensures HubOf(c.s, j) == old(HubOf(c.s, j)) && AuditsOf(c.s, j) == old(AuditsOf(c.s, j))
    ensures Untouched(c.run, |old(c.run)|, |c.run|, j)
  {
    var schedule: seq<Step> := *;
    for i := 0 to |schedule|
      invariant c.Valid() && old(c.run) <= c.run
      invariant HubOf(c.s, j) == old(HubOf(c.s, j)) && AuditsOf(c.s, j) == old(AuditsOf(c.s, j))
      invariant Untouched(c.run, |old(c.run)|, |c.run|, j)
    {
      if !ByHub(schedule[i], j) && Enabled(c.s, schedule[i]) {
        OthersLeaveHubAlone(c.s, schedule[i], j);
        c.Do(schedule[i]);
      }
    }
  }

  /** What can fail on the way: the row update (with or without effect), the audit row, the publish, the blob's
      removal. */
  datatype Trouble = Trouble(update: bool, applied: bool, audit: bool, publish: bool, removal: bool)

  /** What the steps of the hub leave behind. */
  lemma HubStepEffects(s: State, j: JobId, ls: LinkStep)
    requires Enabled(s, OnLink(j, ls)) && (ls.HubAudit? || ls.HubRelay? || ls.HubFinish?)
    ensures var s' := Apply(s, OnLink(j, ls));
      && HubOf(s', j) == (if ls.HubAudit? then Audited(HubOf(s, j).st) else if ls.HubRelay? then Relayed(HubOf(s, j).st)
                          else HubIdle)
      && AuditsOf(s', j) == AuditsOf(s, j) + (if ls.HubAudit? && ls.ok then [HubOf(s, j).st] else [])
      && RowIn(s'.rows, j) == RowIn(s.rows, j) && s'.refs == s.refs
      && (ls.HubFinish? && ls.removed && HubOf(s, j) == Relayed(Delivered) && j in s.refs ==>
            s.refs[j].blobRef in s'.deleted)
  {
  }

  /** Between its commands the hub's status is the row's. */
  lemma RowIsHubs(s: State, j: JobId)
    requires Reachable(s) && !HubOf(s, j).HubIdle?
    ensures RowIn(s.rows, j) == Some(HubOf(s, j).st)
  {
    ReachableIsSafe(s);
    assert LinkFits(RowIn(s.rows, j), CountIn(s.published, j), LinkIn(s.links, j));
  }

  /** A job with a frame on the wire is past the queue: its row exists, and no claim transaction is open on it. */
  lemma FrameMeetsNoClaim(s: State, j: JobId)
    requires Reachable(s) && LinkIn(s.links, j).wire != []
    ensures j !in s.locks && RowIn(s.rows, j).Some?
  {
    ReachableIsSafe(s);
    assert LinkFits(RowIn(s.rows, j), CountIn(s.published, j), LinkIn(s.links, j));
    assert j in s.locks ==> RowClaimable(s, j);
  }

  /** The row update of onStatus, for the next frame about job j; None if the socket failed before there was
      one, or the update did. */
  method UpdateRow(c: Cluster, j: JobId, trouble: Trouble) returns (st: Option<Status>)
    requires c.Valid() && HubOf(c.s, j).HubIdle?
    modifies c
    ensures c.Valid() && old(c.run) <= c.run && AuditsOf(c.s, j) == old(AuditsOf(c.s, j))
    ensures HubOf(c.s, j) == (if st.Some? then Applied(st.value) else HubIdle)
    ensures st.None? ==> trouble.update || LinkIn(c.s.links, j).wire == []
    ensures st.Some? ==> !trouble.update && RowIn(c.s.rows, j) == st
    ensures st.Some? ==>
              exists pre: State :: EndsWith(c.s, pre, OnLink(j, HubApply(true, true)))
                                   && LinkIn(pre.links, j).wire != [] && LinkIn(pre.links, j).wire[0] == st.value
    ensures st.Some? ==> OneMore(old(c.run), c.run, j, HubApply(true, true))
  {
    Interfere(c, j);
    if LinkIn(c.s.links, j).wire == [] {
      return None;
    }
    st := Some(LinkIn(c.s.links, j).wire[0]);
    FrameMeetsNoClaim(c.s, j);
    ghost var pre := c.s;
    c.Do(OnLink(j, HubApply(trouble.applied || !trouble.update, !trouble.update)));
    assert EndsWith(c.s, pre, OnLink(j, HubApply(trouble.applied || !trouble.update, !trouble.update)));
    if trouble.update {
      st := None;
    }
  }

  /** From there on the run holds exactly these four steps of the hub about j, in this order: the row update, the
      audit row, the publish, the removal of the blob; each effective unless it was the one that failed. */
  ghost predicate Sends(run: seq<Step>, from: nat, j: JobId, trouble: Trouble, st: Status, at: (nat, nat, nat, nat)) {
    && from <= at.0 < at.1 < at.2 < at.3 < |run|
    && run[at.0] == OnLink(j, HubApply(true, true))
    && run[at.1] == OnLink(j, HubAudit(!trouble.audit))
    && run[at.2] == OnLink(j, HubRelay(!trouble.publish))
    && run[at.3] == OnLink(j, HubFinish(!trouble.removal))
    && (forall i :: from <= i < |run| && i != at.0 && i != at.1 && i != at.2 && i != at.3 ==> !ByHub(run[i], j))
    && ValidRun(Init, run[..at.2]) && HubOf(Exec(Init, run[..at.2]), j) == Audited(st)
  }

  /** onStatus. Its four commands go out in order, however much the others do in between. If the update went
      through, then when onStatus returns the row shows the frame's status, its audit row is the newest, and
      after a delivered the blob is gone, each of these unless that very command failed. */
  method OnStatus(c: Cluster, j: JobId, trouble: Trouble) returns (st: Option<Status>, ghost at: (nat, nat, nat, nat))
    requires c.Valid() && HubOf(c.s, j).HubIdle?
    modifies c
    ensures c.Valid() && old(c.run) <= c.run && HubOf(c.s, j).HubIdle?
    ensures st.None? ==> trouble.update || LinkIn(c.s.links, j).wire == []
    ensures st.Some? ==> !trouble.update && RowIn(c.s.rows, j) == st
    ensures AuditsOf(c.s, j) == old(AuditsOf(c.s, j)) + (if st.None? || trouble.audit then [] else [st.value])
    ensures st.Some? ==> Sends(c.run, |old(c.run)|, j, trouble, st.value, at)
    ensures st == Some(Delivered) && !trouble.removal && j in c.s.refs ==> c.s.refs[j].blobRef in c.s.deleted
  {
    at := (0, 0, 0, 0);
    st := UpdateRow(c, j, trouble);
    if st.Some? {
      at := TellOthers(c, j, trouble, st.value, old(c.run));
    }
  }

  /** The rest of onStatus, once the row is updated. */
  method TellOthers(c: Cluster, j: JobId, trouble: Trouble, st: Status, ghost run: seq<Step>)
    returns (ghost at: (nat, nat, nat, nat))
    requires c.Valid() && HubOf(c.s, j) == Applied(st) && OneMore(run, c.run, j, HubApply(true, true))
    modifies c
    ensures c.Valid() && old(c.run) <= c.run && HubOf(c.s, j).HubIdle? && RowIn(c.s.rows, j) == Some(st)
    ensures AuditsOf(c.s, j) == old(AuditsOf(c.s, j)) + (if trouble.audit then [] else [st])
    ensures Sends(c.run, |run|, j, trouble, st, at)
    ensures st == Delivered && !trouble.removal && j in c.s.refs ==> c.s.refs[j].blobRef in c.s.deleted
  {
    ghost var first := |c.run| - 1;
    Audit(c, j, trouble, st, run);
    ghost var second := |c.run| - 1;
    Relay(c, j, trouble, st, |run|, first);
    at := Finish(c, j, trouble, st, |run|, first, second);
  }

  /** The audit row. */
  method Audit(c: Cluster, j: JobId, trouble: Trouble, st: Status, ghost run: seq<Step>)
    requires c.Valid() && HubOf(c.s, j) == Applied(st) && OneMore(run, c.run, j, HubApply(true, true))
    modifies c
    ensures c.Valid() && old(c.run) <= c.run && HubOf(c.s, j) == Audited(st)
    ensures AuditsOf(c.s, j) == old(AuditsOf(c.s, j)) + (if trouble.audit then [] else [st])
    ensures HasTwo(c.run, |run|, j, trouble, |old(c.run)| - 1)
  {
    ghost var before := c.run;
    NextCommand(c, j, HubAudit(!trouble.audit));
    TwoSent(run, before, c.run, j, trouble);
  }

  /** The publish. */
  method Relay(c: Cluster, j: JobId, trouble: Trouble, st: Status, ghost from: nat, ghost first: nat)
    requires c.Valid() && HubOf(c.s, j) == Audited(st) && HasTwo(c.run, from, j, trouble, first)
    modifies c
    ensures c.Valid() && old(c.run) <= c.run && HubOf(c.s, j) == Relayed(st)
    ensures AuditsOf(c.s, j) == old(AuditsOf(c.s, j))
    ensures HasThree(c.run, from, j, trouble, st, first, |old(c.run)| - 1)
  {
    ghost var before := c.run;
    NextCommand(c, j, HubRelay(!trouble.publish));
    ThreeSent(before, c.run, from, j, trouble, st, first);
  }

  /** The removal of the blob, for a delivered job. */
  method Finish(c: Cluster, j: JobId, trouble: Trouble, st: Status, ghost from: nat, ghost first: nat,
                ghost second: nat) returns (ghost at: (nat, nat, nat, nat))
    requires c.Valid() && HubOf(c.s, j) == Relayed(st) && HasThree(c.run, from, j, trouble, st, first, second)
    modifies c
    ensures c.Valid() && old(c.run) <= c.run && HubOf(c.s, j).HubIdle? && RowIn(c.s.rows, j) == Some(st)
    ensures AuditsOf(c.s, j) == old(AuditsOf(c.s, j))
    ensures Sends(c.run, from, j, trouble, st, at)
    ensures st == Delivered && !trouble.removal && j in c.s.refs ==> c.s.refs[j].blobRef in c.s.deleted
  {
    ghost var before := c.run;
    NextCommand(c, j, HubFinish(!trouble.removal));
    at := FourSent(before, c.run, from, j, trouble, st, first, second);
  }

  /** run goes on with one more step of the hub about j, at its end. */
  ghost predicate OneMore(run: seq<Step>, run': seq<Step>, j: JobId, ls: LinkStep) {
    run <= run' && |run| < |run'| && run'[|run'| - 1] == OnLink(j, ls) && Untouched(run', |run|, |run'| - 1, j)
  }

  /** The row update and the audit row have gone out, the latter last. */
  ghost predicate HasTwo(run: seq<Step>, from: nat, j: JobId, trouble: Trouble, first: nat) {
    && from <= first < |run| - 1
    && run[first] == OnLink(j, HubApply(true, true)) && run[|run| - 1] == OnLink(j, HubAudit(!trouble.audit))
    && forall i :: from <= i < |run| - 1 && i != first ==> !ByHub(run[i], j)
  }

  /** And the publish after them. */
  ghost predicate HasThree(run: seq<Step>, from: nat, j: JobId, trouble: Trouble, st: Status, first: nat, second: nat) {
    && from <= first < second < |run| - 1
    && run[first] == OnLink(j, HubApply(true, true))
    && run[second] == OnLink(j, HubAudit(!trouble.audit))
    && run[|run| - 1] == OnLink(j, HubRelay(!trouble.publish))
    && (forall i :: from <= i < |run| - 1 && i != first && i != second ==> !ByHub(run[i], j))
    && ValidRun(Init, run[..|run| - 1]) && HubOf(Exec(Init, run[..|run| - 1]), j) == Audited(st)
  }

  lemma TwoSent(run0: seq<Step>, run1: seq<Step>, run2: seq<Step>, j: JobId, trouble: Trouble)
    requires OneMore(run0, run1, j, HubApply(true, true)) && OneMore(run1, run2, j, HubAudit(!trouble.audit))
    ensures HasTwo(run2, |run0|, j, trouble, |run1| - 1)
  {
    forall i | |run0| <= i < |run2| - 1 && i != |run1| - 1 ensures !ByHub(run2[i], j) {
      assert i < |run1| ==> run2[i] == run1[i];
    }
  }

  lemma ThreeSent(run: seq<Step>, run': seq<Step>, from: nat, j: JobId, trouble: Trouble, st: Status, first: nat)
    requires HasTwo(run, from, j, trouble, first) && OneMore(run, run', j, HubRelay(!trouble.publish))
    requires ValidRun(Init, run'[..|run'| - 1]) && HubOf(Exec(Init, run'[..|run'| - 1]), j) == Audited(st)
    ensures HasThree(run', from, j, trouble, st, first, |run| - 1)
  {
    forall i | from <= i < |run'| - 1 && i != first && i != |run| - 1 ensures !ByHub(run'[i], j) {
      assert i < |run| ==> run'[i] == run[i];
    }
  }

  lemma FourSent(run: seq<Step>, run': seq<Step>, from: nat, j: JobId, trouble: Trouble, st: Status, first: nat,
                 second: nat) returns (at: (nat, nat, nat, nat))
    requires HasThree(run, from, j, trouble, st, first, second) && OneMore(run, run', j, HubFinish(!trouble.removal))
    ensures Sends(run', from, j, trouble, st, at)
  {
    at := (first, second, |run| - 1, |run'| - 1);
    assert run'[..at.2] == run[..at.2];
    forall i | from <= i < |run'| - 1 && i != at.0 && i != at.1 && i != at.2 ensures !ByHub(run'[i], j) {
      assert i < |run| ==> run'[i] == run[i];
    }
  }

  /** One more command of onStatus, after the others had their say. */
  method NextCommand(c: Cluster, j: JobId, ls: LinkStep)
    requires c.Valid() && (ls.HubAudit? || ls.HubRelay? || ls.HubFinish?)
    requires if ls.HubAudit? then HubOf(c.s, j).Applied? else if ls.HubRelay? then HubOf(c.s, j).Audited?
             else HubOf(c.s, j).Relayed?
    modifies c
    ensures c.Valid() && OneMore(old(c.run), c.run, j, ls)
    ensures ValidRun(Init, c.run[..|c.run| - 1]) && HubOf(Exec(Init, c.run[..|c.run| - 1]), j) == old(HubOf(c.s, j))
    ensures HubOf(c.s, j) == (if ls.HubAudit? then Audited(old(HubOf(c.s, j)).st)
                              else if ls.HubRelay? then Relayed(old(HubOf(c.s, j)).st) else HubIdle)
    ensures AuditsOf(c.s, j) == old(AuditsOf(c.s, j)) + (if ls.HubAudit? && ls.ok then [old(HubOf(c.s, j)).st] else [])
    ensures RowIn(c.s.rows, j) == Some(old(HubOf(c.s, j)).st)
    ensures ls.HubFinish? && ls.removed && old(HubOf(c.s, j)) == Relayed(Delivered) && j in c.s.refs ==>
              c.s.refs[j].blobRef in c.s.deleted
  {
    Interfere(c, j);
    RowIsHubs(c.s, j);
    HubStepEffects(c.s, j, ls);
    ghost var before := c.run;
    c.Do(OnLink(j, ls));
    assert c.run[..|c.run| - 1] == before;
  }

  // ----- what the streams see of it -----

  /** What a watcher's channel, and the question of a lost status, come to along a run of the protocol. */
  ghost function Watch(s: State, run: seq<Step>, j: JobId, r: StatusRelay.Relay): (r': StatusRelay.Relay)
    requires Reachable(s) && ValidRun(s, run) && r.env == StatusRelay.EnvAt(s, j)
    ensures r'.env == StatusRelay.EnvAt(Exec(s, run), j)
    decreases |run|
  {
    if run == [] then r
    else
      StatusRelay.ProtocolDrivesTheRelay(s, run[0], j);
      ExtendReachable(s, run[0]);
      Watch(Apply(s, run[0]), run[1..], j, StatusRelay.HubNext(r, StatusRelay.EnvOf(s, run[0], j)))
  }

  lemma {:induction false} WatchAppend(s: State, run: seq<Step>, more: seq<Step>, j: JobId, r: StatusRelay.Relay)
    requires Reachable(s) && ValidRun(s, run + more) && ValidRun(s, run) && r.env == StatusRelay.EnvAt(s, j)
    ensures Reachable(Exec(s, run)) && ValidRun(Exec(s, run), more)
    ensures Watch(s, run + more, j, r) == Watch(Exec(s, run), more, j, Watch(s, run, j, r))
    decreases |run|
  {
    if run == [] {
      assert run + more == more;
    } else {
      assert (run + more)[0] == run[0] && (run + more)[1..] == run[1..] + more;
      StatusRelay.ProtocolDrivesTheRelay(s, run[0], j);
      ExtendReachable(s, run[0]);
      WatchAppend(Apply(s, run[0]), run[1..], more, j, StatusRelay.HubNext(r, StatusRelay.EnvOf(s, run[0], j)));
    }
  }

  /** The hub's publish, its death, and an update whose success it does not see are all that a watcher of j can
      be told or lose a status by. */
  ghost predicate Audible(step: Step, j: JobId) {
    step.OnLink? && step.job == j
    && (step.ls.HubRelay? || step.ls.HubDies? || (step.ls.HubApply? && step.ls.applied && !step.ls.ok))
  }

  lemma {:induction false} SilentSteps(s: State, run: seq<Step>, j: JobId, r: StatusRelay.Relay)
    requires Reachable(s) && ValidRun(s, run) && r.env == StatusRelay.EnvAt(s, j)
    requires forall i :: 0 <= i < |run| ==> !Audible(run[i], j)
    ensures Watch(s, run, j, r).published == r.published && Watch(s, run, j, r).lost == r.lost
    decreases |run|
  {
    if run != [] {
      assert !Audible(run[0], j) && forall i :: 0 <= i < |run[1..]| ==> run[1..][i] == run[i + 1];
      StatusRelay.ProtocolDrivesTheRelay(s, run[0], j);
      ExtendReachable(s, run[0]);
      SilentSteps(Apply(s, run[0]), run[1..], j, StatusRelay.HubNext(r, StatusRelay.EnvOf(s, run[0], j)));
    }
  }

  /** The publish puts the frame's status on the channel, unless PUBLISH fails. */
  lemma PublishIsHeard(s: State, step: Step, j: JobId, sent: bool, st: Status, r: StatusRelay.Relay)
    requires step == OnLink(j, HubRelay(sent)) && Reachable(s) && Enabled(s, step) && HubOf(s, j) == Audited(st)
    requires r.env == StatusRelay.EnvAt(s, j)
    ensures ValidRun(s, [step])
    ensures Watch(s, [step], j, r).published == r.published + (if sent then [Some(st)] else [])
    ensures sent ==> Watch(s, [step], j, r).lost == r.lost
  {
    assert [step][1..] == [] && ValidRun(Apply(s, step), []);
    StatusRelay.ProtocolDrivesTheRelay(s, step, j);
    ExtendReachable(s, step);
  }

  /** What onStatus does is heard: whoever watches the job is sent exactly the frame's status, once, and no status is
      lost, unless that PUBLISH failed. */
  lemma WatchersAreTold(run: seq<Step>, from: nat, j: JobId, trouble: Trouble, st: Status, at: (nat, nat, nat, nat),
                        r: StatusRelay.Relay)
    requires ValidRun(Init, run) && Sends(run, from, j, trouble, st, at) && ValidRun(Init, run[..from])
    requires r.env == StatusRelay.EnvAt(Exec(Init, run[..from]), j)
    ensures var s := Exec(Init, run[..from]);
      && Reachable(s) && ValidRun(s, run[from..])
      && Watch(s, run[from..], j, r).published == r.published + (if trouble.publish then [] else [Some(st)])
      && (!trouble.publish ==> Watch(s, run[from..], j, r).lost == r.lost)
  {
    var a, step, b := Around(run, from, j, trouble, st, at);
    ToldFrom(run[..from], a, step, b, !trouble.publish, j, st, r);
  }

  lemma Around(run: seq<Step>, from: nat, j: JobId, trouble: Trouble, st: Status, at: (nat, nat, nat, nat))
    returns (a: seq<Step>, step: Step, b: seq<Step>)
    requires Sends(run, from, j, trouble, st, at)
    ensures step == OnLink(j, HubRelay(!trouble.publish)) && run[from..] == a + ([step] + b)
    ensures run[..from] + (a + ([step] + b)) == run
    ensures ValidRun(Init, run[..from] + a) && HubOf(Exec(Init, run[..from] + a), j) == Audited(st)
    ensures forall i :: 0 <= i < |a| ==> !Audible(a[i], j)
    ensures forall i :: 0 <= i < |b| ==> !Audible(b[i], j)
  {
    a, step, b := run[from..at.2], run[at.2], run[at.2 + 1..];
    CutAt(run, from, at.2, a, step, b);
    SilentBefore(run, from, j, trouble, st, at, a);
    SilentAfter(run, from, j, trouble, st, at, b);
  }

  lemma SilentBefore(run: seq<Step>, from: nat, j: JobId, trouble: Trouble, st: Status, at: (nat, nat, nat, nat),
                     a: seq<Step>)
    requires Sends(run, from, j, trouble, st, at) && a == run[from..at.2]
    ensures forall i :: 0 <= i < |a| ==> !Audible(a[i], j)
  {
    forall i | 0 <= i < |a| ensures !Audible(a[i], j) {
      assert a[i] == run[from + i];
    }
  }

  lemma SilentAfter(run: seq<Step>, from: nat, j: JobId, trouble: Trouble, st: Status, at: (nat, nat, nat, nat),
                    b: seq<Step>)
    requires Sends(run, from, j, trouble, st, at) && b == run[at.2 + 1..]
    ensures forall i :: 0 <= i < |b| ==> !Audible(b[i], j)
  {
    forall i | 0 <= i < |b| ensures !Audible(b[i], j) {
      assert b[i] == run[at.2 + 1 + i];
    }
  }

  lemma ToldFrom(before: seq<Step>, a: seq<Step>, step: Step, b: seq<Step>, sent: bool, j: JobId, st: Status,
                 r: StatusRelay.Relay)
    requires step == OnLink(j, HubRelay(sent)) && ValidRun(Init, before) && ValidRun(Init, before + (a + ([step] + b)))
    requires ValidRun(Init, before + a) && HubOf(Exec(Init, before + a), j) == Audited(st)
    requires r.env == StatusRelay.EnvAt(Exec(Init, before), j)
    requires forall i :: 0 <= i < |a| ==> !Audible(a[i], j)
    requires forall i :: 0 <= i < |b| ==> !Audible(b[i], j)
    ensures var s := Exec(Init, before);
      && Reachable(s) && ValidRun(s, a + ([step] + b))
      && var r' := Watch(s, a + ([step] + b), j, r);
         r'.published == r.published + (if sent then [Some(st)] else []) && (sent ==> r'.lost == r.lost)
  {
    RunAppend(Init, before, a + ([step] + b));
    RunAppend(Init, before, a);
    HeardOnce(Exec(Init, before), a, step, b, [step] + b, sent, j, st, r);
  }

  lemma CutAt(run: seq<Step>, from: nat, k: nat, a: seq<Step>, step: Step, b: seq<Step>)
    requires from <= k < |run| && a == run[from..k] && step == run[k] && b == run[k + 1..]
    ensures run[..from] + (a + ([step] + b)) == run && run[from..] == a + ([step] + b) && run[..k] == run[..from] + a
  {
  }

  lemma HeardOnce(s: State, a: seq<Step>, step: Step, b: seq<Step>, tail: seq<Step>, sent: bool, j: JobId, st: Status,
                  r: StatusRelay.Relay)
    requires step == OnLink(j, HubRelay(sent)) && tail == [step] + b && Reachable(s) && ValidRun(s, a + tail)
    requires r.env == StatusRelay.EnvAt(s, j) && ValidRun(s, a) && HubOf(Exec(s, a), j) == Audited(st)
    requires forall i :: 0 <= i < |a| ==> !Audible(a[i], j)
    requires forall i :: 0 <= i < |b| ==> !Audible(b[i], j)
    ensures var r' := Watch(s, a + tail, j, r);
      r'.published == r.published + (if sent then [Some(st)] else []) && (sent ==> r'.lost == r.lost)
  {
    WatchAppend(s, a, tail, j, r);
    SilentSteps(s, a, j, r);
    HeardFirst(Exec(s, a), step, b, tail, sent, j, st, Watch(s, a, j, r));
  }

  lemma HeardFirst(s: State, step: Step, b: seq<Step>, tail: seq<Step>, sent: bool, j: JobId, st: Status,
                   r: StatusRelay.Relay)
    requires step == OnLink(j, HubRelay(sent)) && tail == [step] + b && Reachable(s) && ValidRun(s, tail)
    requires r.env == StatusRelay.EnvAt(s, j) && HubOf(s, j) == Audited(st)
    requires forall i :: 0 <= i < |b| ==> !Audible(b[i], j)
    ensures var r' := Watch(s, tail, j, r);
      r'.published == r.published + (if sent then [Some(st)] else []) && (sent ==> r'.lost == r.lost)
  {
    assert tail[0] == step;
    PublishIsHeard(s, step, j, sent, st, r);
    WatchAppend(s, [step], b, j, r);
    SilentSteps(Exec(s, [step]), b, j, Watch(s, [step], j, r));
  }
}
