/** Deleting consumers. XGROUP DELCONSUMER drops the consumer's PEL, and XPENDING before it is a command of
    its own: a consumer that reads between the two loses what it read. The rule that only consumers which
    read no more are deleted is enough for no entry ever to be discarded, and it is exact. */
module DeleteRule {
  import opened Wrappers
  import opened JobRefs
  import opened DispatchLimits
  import opened StreamGroup
  import opened Protocol
  import opened DispatchSafety
  import opened QueueSafety

  /** The delete rule: the XPENDING that a deletion goes by finds a consumer that reads no more. */
  ghost predicate DeletesSafely(s: State, step: Step) {
    match step
    case OnNode(n, Probe) => n in s.retired
    case _ => true
  }

  ghost predicate DeletesSafelyRun(s: State, run: seq<Step>)
    requires ValidRun(s, run)
    decreases |run|
  {
    run == [] || (DeletesSafely(s, run[0]) && DeletesSafelyRun(Apply(s, run[0]), run[1..]))
  }

  ghost predicate DeletesFit(s: State) {
    && s.group.discarded == {}
    && (forall n: NodeId :: n in s.probed ==> n in s.retired && Owned(s.group, n) == {})
    && (forall n: NodeId :: n in s.retired ==> PcIn(s.pcs, Dispatcher(n)).Idle? && BatchIn(s.batches, n) == [])
  }

  /** A node that reads no more gains no entries, whatever anybody does. */
  lemma RetiredGainsNothing(s: State, n: NodeId, ns: NodeStep, v: NodeId)
    requires NodeEnabled(s, n, ns) && v in s.retired
    ensures Owned(NodeGroup(s, n, ns), v) <= Owned(s.group, v)
  {
  }

  lemma NodeKeepsDeletes(s: State, n: NodeId, ns: NodeStep)
    requires RunInv(s) && DeletesFit(s) && NodeEnabled(s, n, ns) && DeletesSafely(s, OnNode(n, ns))
    ensures DeletesFit(ApplyNode(s, n, ns))
  {
    var s' := ApplyNode(s, n, ns);
    forall v: NodeId | v in s'.probed ensures v in s'.retired && Owned(s'.group, v) == {} {
      RetiredGainsNothing(s, n, ns, v);
    }
    if ns.DelConsumer? {
      DelConsumerConserves(s.group, n);
    }
  }

  /** Whoever moves no retired dispatcher and no entry between PELs keeps the deletions safe. */
  lemma DeletesStay(s: State, s': State)
    requires DeletesFit(s) && s'.retired == s.retired && s'.probed == s.probed
    requires s'.group.discarded == s.group.discarded && s'.group.pel == s.group.pel
    requires forall n: NodeId :: n in s.retired ==>
               PcIn(s'.pcs, Dispatcher(n)).Idle? && BatchIn(s'.batches, n) == []
    ensures DeletesFit(s')
  {
    forall n: NodeId | n in s'.probed ensures n in s'.retired && Owned(s'.group, n) == {} {
      assert Owned(s.group, n) == {};
    }
  }

  /** A retired dispatcher has no command to send. */
  lemma AttemptLeavesRetired(s: State, a: Actor, at: Attempt, n: NodeId)
    requires AttemptEnabled(s, a, at) && PcIn(s.pcs, Dispatcher(n)).Idle? && BatchIn(s.batches, n) == []
    ensures var s' := ApplyAttempt(s, a, at); PcIn(s'.pcs, Dispatcher(n)).Idle? && BatchIn(s'.batches, n) == []
  {
  }

  lemma StepKeepsDeletes(s: State, step: Step)
    requires RunInv(s) && DeletesFit(s) && Enabled(s, step) && DeletesSafely(s, step)
    ensures DeletesFit(Apply(s, step))
  {
    match step
    case OnNode(n, ns) => NodeKeepsDeletes(s, n, ns);
    case Attempts(a, at) =>
      forall n: NodeId | n in s.retired
        ensures var s' := ApplyAttempt(s, a, at); PcIn(s'.pcs, Dispatcher(n)).Idle? && BatchIn(s'.batches, n) == []
      {
        AttemptLeavesRetired(s, a, at, n);
      }
      DeletesStay(s, Apply(s, step));
    case _ => DeletesStay(s, Apply(s, step));
  }

  lemma {:induction false} RunKeepsDeletes(s: State, run: seq<Step>)
    requires RunInv(s) && DeletesFit(s) && ValidRun(s, run) && DeletesSafelyRun(s, run)
    ensures RunInv(Exec(s, run)) && DeletesFit(Exec(s, run))
    decreases |run|
  {
    if run != [] {
      StepKeepsRunInv(s, run[0]);
      StepKeepsDeletes(s, run[0]);
      RunKeepsDeletes(Apply(s, run[0]), run[1..]);
    }
  }

  lemma InitDeletes()
    ensures DeletesFit(Init)
  {
  }

  /** Neither RemoveConsumer nor ReapStaleConsumers ever drops an entry: in every run in which consumers are
      only deleted once they read no more, overlapping reclaims and all. */
  lemma NoEntryIsDiscarded(run: seq<Step>)
    requires ValidRun(Init, run) && DeletesSafelyRun(Init, run)
    ensures Exec(Init, run).group.discarded == {}
  {
    InitInv();
    InitDeletes();
    RunKeepsDeletes(Init, run);
  }

  // ----- the rule is exact -----

  /** The states runs under the delete rule lead to. */
  ghost predicate SafelyReached(s: State) {
    exists run: seq<Step> :: Grows(Init, run, s)
  }

  lemma SafelyReachedInv(s: State)
    requires SafelyReached(s)
    ensures RunInv(s) && DeletesFit(s) && s.group.cursor <= |s.group.log|
  {
    var run: seq<Step> :| Grows(Init, run, s);
    InitInv();
    InitDeletes();
    RunKeepsDeletes(Init, run);
  }

  lemma {:induction false} DeletesSafelyAppend(s: State, run: seq<Step>, step: Step)
    requires ValidRun(s, run + [step]) && ValidRun(s, run)
    requires DeletesSafelyRun(s, run) && Enabled(Exec(s, run), step) && DeletesSafely(Exec(s, run), step)
    ensures DeletesSafelyRun(s, run + [step])
    decreases |run|
  {
    if run == [] {
      assert run + [step] == [step] && [step][1..] == [];
    } else {
      assert (run + [step])[0] == run[0] && (run + [step])[1..] == run[1..] + [step];
      DeletesSafelyAppend(Apply(s, run[0]), run[1..], step);
    }
  }

  ghost predicate NeverDiscards(s: State) {
    forall run: seq<Step> :: ValidRun(s, run) && DeletesSafelyRun(s, run) ==> Exec(s, run).group.discarded == {}
  }

  /** A run under the delete rule, grown one step at a time. */
  ghost predicate Grows(s: State, run: seq<Step>, t: State) {
    ValidRun(s, run) && DeletesSafelyRun(s, run) && Exec(s, run) == t
  }

  lemma Grow(s: State, run: seq<Step>, t: State, step: Step) returns (run': seq<Step>)
    requires Grows(s, run, t) && Enabled(t, step) && DeletesSafely(t, step)
    ensures Grows(s, run', Apply(t, step))
  {
    run' := run + [step];
    assert [step][1..] == [] && ValidRun(Apply(t, step), []);
    RunAppend(s, run, [step]);
    DeletesSafelyAppend(s, run, step);
  }

  /** A fresh job is queued behind whatever is in the stream. */
  lemma QueueJob(s: State, run: seq<Step>, t: State, ref: JobRef) returns (run': seq<Step>, u: State)
    requires Grows(s, run, t) && ref.jobId !in t.rows
    ensures Grows(s, run', u)
    ensures u.group == XAdd(t.group, ToXAddValues(ref)) && u.probed == t.probed && u.retired == t.retired
    ensures u.batches == t.batches && forall n: NodeId :: PcIn(u.pcs, Dispatcher(n)) == PcIn(t.pcs, Dispatcher(n))
  {
    var j := ref.jobId;
    run' := Grow(s, run, t, Submit(ref));
    u := Apply(t, Submit(ref));
    run' := Grow(s, run', u, Attempts(Handler(j), Check(false)));
    u := Apply(u, Attempts(Handler(j), Check(false)));
    run' := Grow(s, run', u, Enqueue(j, true, true));
    u := Apply(u, Enqueue(j, true, true));
  }

  /** A live dispatcher can always come back to its loop, if only by restarting. */
  lemma BackToLoop(s: State, run: seq<Step>, t: State, n: NodeId) returns (run': seq<Step>, u: State)
    requires Grows(s, run, t) && n !in t.retired
    ensures Grows(s, run', u) && Ready(u, n)
    ensures u.group == t.group && u.probed == t.probed
  {
    run', u := run, t;
    if !PcIn(t.pcs, Dispatcher(n)).Idle? {
      run' := Grow(s, run, t, Attempts(Dispatcher(n), Crash));
      u := Apply(t, Attempts(Dispatcher(n), Crash));
    }
    var v := Apply(u, OnNode(n, StopBatch));
    run' := Grow(s, run', u, OnNode(n, StopBatch));
    u := v;
  }

  lemma ReadAndDelete(s: State, run: seq<Step>, t: State, n: NodeId) returns (run': seq<Step>, u: State)
    requires Grows(s, run, t) && Ready(t, n) && n in t.probed && t.group.cursor < |t.group.log|
    ensures Grows(s, run', u) && u.group.discarded != {}
  {
    run' := Grow(s, run, t, OnNode(n, Read(true)));
    u := ApplyNode(t, n, Read(true));
    assert Ids(t.group.cursor, ReadCount(t.group, READ_COUNT))[0] == t.group.cursor;
    assert t.group.cursor in Owned(u.group, n);
    run' := Grow(s, run', u, OnNode(n, DelConsumer));
    u := ApplyNode(u, n, DelConsumer);
    assert t.group.cursor in u.group.discarded;
  }

  /** The delete rule is exact: once XPENDING has shown a consumer empty, deleting it can never drop an
      unhandled entry if and only if its dispatcher reads no more. The states are all those the rule itself
      leads to, whatever is reclaimed from whom. */
  lemma DeleteRuleIsExact(s: State, n: NodeId, ref: JobRef)
    requires SafelyReached(s) && NodeEnabled(s, n, Probe) && ref.jobId !in s.rows
    ensures n in s.retired <==> NeverDiscards(ApplyNode(s, n, Probe))
  {
    var s' := ApplyNode(s, n, Probe);
    SafelyReachedInv(s);
    if n in s.retired {
      StepKeepsDeletes(s, OnNode(n, Probe));
      StepKeepsRunInv(s, OnNode(n, Probe));
      forall run: seq<Step> | ValidRun(s', run) && DeletesSafelyRun(s', run)
        ensures Exec(s', run).group.discarded == {}
      {
        RunKeepsDeletes(s', run);
      }
    } else {
      assert Grows(s', [], s');
      var run, t := QueueJob(s', [], s', ref);
      run, t := BackToLoop(s', run, t, n);
      run, t := ReadAndDelete(s', run, t, n);
    }
  }
}
