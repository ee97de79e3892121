/** What becomes of a job when nothing goes wrong. From every reachable state, whatever else is under way: a job
    submitted for a printer that is ready can go all the way to delivered, its blob removed; and one submitted for
    a printer that is not ready is queued, and dispatched by whichever node reads it once the printer is. */
module Delivery {
  import opened Wrappers
  import opened JobRefs
  import opened DispatchLimits
  import opened StreamGroup
  import opened Protocol
  import opened DispatchSafety
  import opened QueueSafety

  ghost predicate RunsTo(s: State, run: seq<Step>, t: State) {
    ValidRun(s, run) && Exec(s, run) == t && Reachable(t)
  }

  lemma Does(s: State, run: seq<Step>, t: State, step: Step) returns (run': seq<Step>, t': State)
    requires RunsTo(s, run, t) && Enabled(t, step)
    ensures RunsTo(s, run', t') && t' == Apply(t, step) && run' == run + [step]
  {
    run', t' := run + [step], Apply(t, step);
    assert [step][1..] == [] && ValidRun(t', []) && Exec(t', []) == t';
    RunAppend(s, run, [step]);
    ExtendReachable(t, step);
  }

  /** How a job stands: its row, whoever has it locked, its publishes, its link and its handler. */
  datatype Standing = Standing(row: Status, lock: Option<Actor>, published: nat, link: Link, handler: Pc)

  ghost predicate Stands(t: State, ref: JobRef, v: Standing) {
    var j := ref.jobId;
    && RowIn(t.rows, j) == Some(v.row) && j in t.refs && t.refs[j] == ref
    && (if v.lock.Some? then j in t.locks && t.locks[j] == v.lock.value else j !in t.locks)
    && CountIn(t.published, j) == v.published && LinkIn(t.links, j) == v.link && PcIn(t.pcs, Handler(j)) == v.handler
  }

  /** A fresh id has left no trace anywhere. */
  lemma FreshStands(s: State, ref: JobRef)
    requires Reachable(s) && ref.jobId !in s.rows
    ensures Enabled(s, Submit(ref))
    ensures Stands(Apply(s, Submit(ref)), ref, Standing(Submitted, None, 0, NoLink, Trying(ref.jobId)))
    ensures Apply(s, Submit(ref)).group == s.group
  {
    ReachableIsSafe(s);
    assert LinkFits(RowIn(s.rows, ref.jobId), CountIn(s.published, ref.jobId), LinkIn(s.links, ref.jobId));
    assert ref.jobId in s.locks ==> RowClaimable(s, ref.jobId);
  }

  // ----- an attempt in which every command succeeds -----

  /** One command of an attempt by an actor that stands at pc, with the job in hand. */
  lemma Commands(s: State, run: seq<Step>, t: State, ref: JobRef, v: Standing, a: Actor, at: Attempt)
    returns (run': seq<Step>, t': State, v': Standing)
    requires RunsTo(s, run, t) && Stands(t, ref, v) && AttemptEnabled(t, a, at) && !at.Crash? && !at.Requeue?
    requires PcIn(t.pcs, a).job == ref.jobId && !PcIn(t.pcs, a).Idle?
    ensures RunsTo(s, run', t') && Stands(t', ref, v') && t' == ApplyAttempt(t, a, at)
    ensures v' == Standing(if at.Commit? then Dispatching else v.row,
                           if at.Lock? && AttemptPc(t, a, at).Locked? then Some(a)
                           else if (at.Commit? || at.GiveUp?) && v.lock == Some(a) then None else v.lock,
                           v.published + if Publishing(at) then 1 else 0,
                           if Publishing(at) then Sent(v.link) else v.link,
                           if a == Handler(ref.jobId) then AttemptPc(t, a, at) else v.handler)
  {
    run', t' := Does(s, run, t, Attempts(a, at));
    v' := Standing(if at.Commit? then Dispatching else v.row,
                   if at.Lock? && AttemptPc(t, a, at).Locked? then Some(a)
                   else if (at.Commit? || at.GiveUp?) && v.lock == Some(a) then None else v.lock,
                   v.published + if Publishing(at) then 1 else 0,
                   if Publishing(at) then Sent(v.link) else v.link,
                   if a == Handler(ref.jobId) then AttemptPc(t, a, at) else v.handler);
  }

  /** From the check to the publish: what an attempt makes of a free job for which everything goes well. */
  lemma AttemptSucceeds(s: State, run: seq<Step>, t: State, ref: JobRef, v: Standing, a: Actor)
    returns (run': seq<Step>, t': State, v': Standing)
    requires RunsTo(s, run, t) && Stands(t, ref, v) && PcIn(t.pcs, a) == Trying(ref.jobId)
    requires (v.row == Submitted || v.row == Queued) && v.lock == None
    ensures RunsTo(s, run', t') && Stands(t', ref, v')
    ensures v' == Standing(Dispatching, None, v.published + 1, Sent(v.link),
                           if a == Handler(ref.jobId) then Returned(ref.jobId, Dispatched) else v.handler)
    ensures PcIn(t'.pcs, a) == Returned(ref.jobId, Dispatched) && t'.group == t.group && t'.batches == t.batches
    ensures t'.retired == t.retired
  {
    var u, w;
    run', u, w := ClaimSucceeds(s, run, t, ref, v, a);
    run', t', v' := Commands(s, run', u, ref, w, a, Publish(1));
  }

  lemma ClaimSucceeds(s: State, run: seq<Step>, t: State, ref: JobRef, v: Standing, a: Actor)
    returns (run': seq<Step>, t': State, v': Standing)
    requires RunsTo(s, run, t) && Stands(t, ref, v) && PcIn(t.pcs, a) == Trying(ref.jobId)
    requires (v.row == Submitted || v.row == Queued) && v.lock == None
    ensures RunsTo(s, run', t') && Stands(t', ref, v') && PcIn(t'.pcs, a) == Claimed(ref.jobId)
    ensures v' == v.(row := Dispatching, handler := if a == Handler(ref.jobId) then Claimed(ref.jobId) else v.handler)
    ensures t'.group == t.group && t'.batches == t.batches && t'.retired == t.retired
  {
    var u, w;
    run', u, w := LockSucceeds(s, run, t, ref, v, a);
    run', u, w := Commands(s, run', u, ref, w, a, Mark);
    run', t', v' := Commands(s, run', u, ref, w, a, Commit);
  }

  lemma LockSucceeds(s: State, run: seq<Step>, t: State, ref: JobRef, v: Standing, a: Actor)
    returns (run': seq<Step>, t': State, v': Standing)
    requires RunsTo(s, run, t) && Stands(t, ref, v) && PcIn(t.pcs, a) == Trying(ref.jobId)
    requires (v.row == Submitted || v.row == Queued) && v.lock == None
    ensures RunsTo(s, run', t') && Stands(t', ref, v') && PcIn(t'.pcs, a) == Locked(ref.jobId)
    ensures v' == v.(lock := Some(a), handler := if a == Handler(ref.jobId) then Locked(ref.jobId) else v.handler)
    ensures t'.group == t.group && t'.batches == t.batches && t'.retired == t.retired
  {
    var u, w;
    run', u, w := Commands(s, run, t, ref, v, a, Check(true));
    run', t', v' := Commands(s, run', u, ref, w, a, Lock);
  }

  // ----- the frames -----

  /** One step of the printer or the hub about the job. */
  lemma OverLink(s: State, run: seq<Step>, t: State, ref: JobRef, v: Standing, ls: LinkStep)
    returns (run': seq<Step>, t': State, v': Standing)
    requires RunsTo(s, run, t) && Stands(t, ref, v) && v.lock == None && LinkEnabled(Some(v.row), v.link, ls)
    ensures RunsTo(s, run', t') && Stands(t', ref, v') && t'.group == t.group && t.deleted <= t'.deleted
    ensures RowNext(Some(v.row), v.link, ls).Some?
    ensures v' == v.(row := RowNext(Some(v.row), v.link, ls).value, link := LinkNext(Some(v.row), v.link, ls))
    ensures ls == HubFinish(true) && v.link.hub.st == Delivered ==> ref.blobRef in t'.deleted
  {
    run', t' := Does(s, run, t, OnLink(ref.jobId, ls));
    v' := v.(row := RowNext(Some(v.row), v.link, ls).value, link := LinkNext(Some(v.row), v.link, ls));
  }

  /** The hub takes the one frame on the wire through its four commands. */
  lemma FrameIsApplied(s: State, run: seq<Step>, t: State, ref: JobRef, v: Standing, st: Status)
    returns (run': seq<Step>, t': State, v': Standing)
    requires RunsTo(s, run, t) && Stands(t, ref, v) && v.lock == None && v.link.hub.HubIdle? && v.link.wire == [st]
    ensures RunsTo(s, run', t') && Stands(t', ref, v') && t'.group == t.group
    ensures v' == v.(row := st, link := v.link.(wire := [], audits := v.link.audits + [st]))
    ensures st == Delivered ==> ref.blobRef in t'.deleted
  {
    var u, w;
    run', u, w := FrameIsRecorded(s, run, t, ref, v, st);
    run', u, w := OverLink(s, run', u, ref, w, HubRelay(true));
    run', t', v' := OverLink(s, run', u, ref, w, HubFinish(true));
  }

  lemma FrameIsRecorded(s: State, run: seq<Step>, t: State, ref: JobRef, v: Standing, st: Status)
    returns (run': seq<Step>, t': State, v': Standing)
    requires RunsTo(s, run, t) && Stands(t, ref, v) && v.lock == None && v.link.hub.HubIdle? && v.link.wire == [st]
    ensures RunsTo(s, run', t') && Stands(t', ref, v') && t'.group == t.group
    ensures v' == v.(row := st, link := v.link.(wire := [], hub := Audited(st), audits := v.link.audits + [st]))
  {
    var u, w;
    run', u, w := OverLink(s, run, t, ref, v, HubApply(true, true));
    run', t', v' := OverLink(s, run', u, ref, w, HubAudit(true));
  }

  /** From the publish on: the printer prints, and the hub applies both of its reports. */
  lemma PrinterDelivers(s: State, run: seq<Step>, t: State, ref: JobRef, v: Standing)
    returns (run': seq<Step>, t': State, v': Standing)
    requires RunsTo(s, run, t) && Stands(t, ref, v) && v.row == Dispatching && v.lock == None && v.link == Sent(NoLink)
    ensures RunsTo(s, run', t') && Stands(t', ref, v') && t'.group == t.group && ref.blobRef in t'.deleted
    ensures v' == v.(row := Delivered, link := Link(0, Done, [], HubIdle, [Printing, Delivered]))
  {
    var u, w;
    run', u, w := PrinterStarts(s, run, t, ref, v);
    run', t', v' := PrinterEnds(s, run', u, ref, w);
  }

  lemma PrinterStarts(s: State, run: seq<Step>, t: State, ref: JobRef, v: Standing)
    returns (run': seq<Step>, t': State, v': Standing)
    requires RunsTo(s, run, t) && Stands(t, ref, v) && v.row == Dispatching && v.lock == None && v.link == Sent(NoLink)
    ensures RunsTo(s, run', t') && Stands(t', ref, v') && t'.group == t.group
    ensures v' == v.(row := Printing, link := Link(0, Working, [], HubIdle, [Printing]))
  {
    var u, w;
    run', u, w := OverLink(s, run, t, ref, v, Receive);
    run', u, w := OverLink(s, run', u, ref, w, SendPrinting(true));
    assert w.link == Link(0, Working, [Printing], HubIdle, []);
    run', t', v' := FrameIsApplied(s, run', u, ref, w, Printing);
    assert v'.link.audits == [Printing];
  }

  lemma PrinterEnds(s: State, run: seq<Step>, t: State, ref: JobRef, v: Standing)
    returns (run': seq<Step>, t': State, v': Standing)
    requires RunsTo(s, run, t) && Stands(t, ref, v) && v.row == Printing && v.lock == None
    requires v.link == Link(0, Working, [], HubIdle, [Printing])
    ensures RunsTo(s, run', t') && Stands(t', ref, v') && t'.group == t.group && ref.blobRef in t'.deleted
    ensures v' == v.(row := Delivered, link := Link(0, Done, [], HubIdle, [Printing, Delivered]))
  {
    var u, w;
    run', u, w := OverLink(s, run, t, ref, v, SendEnd(Delivered, true));
    assert w.link == Link(0, Done, [Delivered], HubIdle, [Printing]);
    run', t', v' := FrameIsApplied(s, run', u, ref, w, Delivered);
    assert v'.link.audits == [Printing, Delivered];
  }

  // ----- the main results -----

  /** A job for a printer that is ready: from every reachable state there is a run, in which only this job moves,
      that answers "dispatching", publishes it once, and ends with the row delivered, both audit rows written, the
      blob removed, and the stream as it was. */
  lemma ReadyJobIsDelivered(s: State, ref: JobRef) returns (run: seq<Step>, t: State)
    requires Reachable(s) && ref.jobId !in s.rows
    ensures ValidRun(s, run) && Exec(s, run) == t && t.group == s.group
    ensures RowIn(t.rows, ref.jobId) == Some(Delivered) && ref.blobRef in t.deleted
    ensures PcIn(t.pcs, Handler(ref.jobId)) == Replied(SaidDispatching) && CountIn(t.published, ref.jobId) == 1
    ensures LinkIn(t.links, ref.jobId) == Link(0, Done, [], HubIdle, [Printing, Delivered])
  {
    var u, v, w;
    run, u := Submits(s, ref);
    run, v, w := AttemptSucceeds(s, run, u, ref, Standing(Submitted, None, 0, NoLink, Trying(ref.jobId)),
                                 Handler(ref.jobId));
    run, u, w := RepliesDispatching(s, run, v, ref, w);
    run, t, w := PrinterDelivers(s, run, u, ref, w);
  }

  lemma Submits(s: State, ref: JobRef) returns (run: seq<Step>, t: State)
    requires Reachable(s) && ref.jobId !in s.rows
    ensures RunsTo(s, run, t) && t == Apply(s, Submit(ref)) && t.group == s.group
    ensures t.batches == s.batches && t.retired == s.retired
    ensures forall n: NodeId :: PcIn(t.pcs, Dispatcher(n)) == PcIn(s.pcs, Dispatcher(n))
    ensures Stands(t, ref, Standing(Submitted, None, 0, NoLink, Trying(ref.jobId)))
  {
    assert RunsTo(s, [], s);
    FreshStands(s, ref);
    run, t := Does(s, [], s, Submit(ref));
  }

  lemma RepliesDispatching(s: State, run: seq<Step>, t: State, ref: JobRef, v: Standing)
    returns (run': seq<Step>, t': State, v': Standing)
    requires RunsTo(s, run, t) && Stands(t, ref, v) && v.handler == Returned(ref.jobId, Dispatched)
    ensures RunsTo(s, run', t') && Stands(t', ref, v') && t'.group == t.group
    ensures v' == v.(handler := Replied(SaidDispatching))
  {
    run', t' := Does(s, run, t, Answers(ref.jobId));
    v' := v.(handler := Replied(SaidDispatching));
  }

  /** A job for a printer that is not ready: it is answered "queued" and gets the next entry of the stream. */
  lemma BlockedJobIsQueued(s: State, ref: JobRef) returns (run: seq<Step>, t: State)
    requires Reachable(s) && ref.jobId !in s.rows
    ensures RunsTo(s, run, t)
    ensures Stands(t, ref, Standing(Submitted, None, 0, NoLink, Replied(SaidQueued)))
    ensures t.group == s.group.(log := s.group.log + [ToXAddValues(ref)])
    ensures t.batches == s.batches && t.retired == s.retired
    ensures forall n: NodeId :: PcIn(t.pcs, Dispatcher(n)) == PcIn(s.pcs, Dispatcher(n))
  {
    var u, w;
    run, u := Submits(s, ref);
    run, u, w := Commands(s, run, u, ref, Standing(Submitted, None, 0, NoLink, Trying(ref.jobId)), Handler(ref.jobId),
                          Check(false));
    run, t := Does(s, run, u, Enqueue(ref.jobId, true, true));
  }

  /** And once the printer is ready, any node whose loop is between two reads, nothing else being unread, takes it
      from the stream, publishes it once, and acknowledges the entry. */
  lemma QueuedJobIsDispatched(s: State, ref: JobRef, n: NodeId) returns (run: seq<Step>, t: State)
    requires Reachable(s) && ref.jobId !in s.rows && Ready(s, n) && s.group.cursor == |s.group.log|
    ensures ValidRun(s, run) && Exec(s, run) == t && Ready(t, n)
    ensures RowIn(t.rows, ref.jobId) == Some(Dispatching) && CountIn(t.published, ref.jobId) == 1
    ensures PcIn(t.pcs, Handler(ref.jobId)) == Replied(SaidQueued)
    ensures t.group.log == s.group.log + [ToXAddValues(ref)] && t.group.cursor == |t.group.log|
    ensures |s.group.log| in t.group.acked && !Pending(t.group, |s.group.log|)
  {
    var u, w;
    run, u := BlockedJobIsQueued(s, ref);
    run, u := NodeTakes(s, run, u, ref, n);
    var v := Standing(Submitted, None, 0, NoLink, Replied(SaidQueued));
    run, u, w := AttemptSucceeds(s, run, u, ref, v, Dispatcher(n));
    run, t := NodeAcks(s, run, u, ref, w, n);
  }

  lemma NodeTakes(s: State, run: seq<Step>, t: State, ref: JobRef, n: NodeId) returns (run': seq<Step>, t': State)
    requires RunsTo(s, run, t) && Stands(t, ref, Standing(Submitted, None, 0, NoLink, Replied(SaidQueued)))
    requires Ready(t, n) && |t.group.log| == t.group.cursor + 1 && t.group.log[t.group.cursor] == ToXAddValues(ref)
    ensures RunsTo(s, run', t') && Stands(t', ref, Standing(Submitted, None, 0, NoLink, Replied(SaidQueued)))
    ensures BatchIn(t'.batches, n) == [t.group.cursor] && PcIn(t'.pcs, Dispatcher(n)) == Trying(ref.jobId)
    ensures n !in t'.retired && t'.group.log == t.group.log && t'.group.cursor == |t.group.log|
    ensures t.group.cursor in Owned(t'.group, n)
  {
    run', t' := NodeReads(s, run, t, ref, n);
    JobRefRoundTrip(ref);
    run', t' := Does(s, run', t', OnNode(n, Take));
  }

  lemma NodeReads(s: State, run: seq<Step>, t: State, ref: JobRef, n: NodeId) returns (run': seq<Step>, t': State)
    requires RunsTo(s, run, t) && Stands(t, ref, Standing(Submitted, None, 0, NoLink, Replied(SaidQueued)))
    requires Ready(t, n) && |t.group.log| == t.group.cursor + 1
    ensures RunsTo(s, run', t') && Stands(t', ref, Standing(Submitted, None, 0, NoLink, Replied(SaidQueued)))
    ensures BatchIn(t'.batches, n) == [t.group.cursor] && PcIn(t'.pcs, Dispatcher(n)).Idle? && n !in t'.retired
    ensures t'.group.log == t.group.log && t'.group.cursor == |t.group.log| && t.group.cursor in Owned(t'.group, n)
  {
    ReadsTheLast(t.group, n);
    run', t' := Does(s, run, t, OnNode(n, Read(true)));
  }

  lemma ReadsTheLast(g: Group, n: NodeId)
    requires |g.log| == g.cursor + 1
    ensures Ids(g.cursor, ReadCount(g, READ_COUNT)) == [g.cursor]
    ensures var g' := XReadGroup(g, n, READ_COUNT);
      g'.log == g.log && g'.cursor == |g.log| && g.cursor in Owned(g', n)
  {
    assert READ_COUNT == 10;
    assert Ids(g.cursor, 1) == [g.cursor];
    assert g.cursor in Owned(XReadGroup(g, n, READ_COUNT), n) by {
      assert Ids(g.cursor, 1)[0] == g.cursor;
    }
  }

  lemma NodeAcks(s: State, run: seq<Step>, t: State, ref: JobRef, v: Standing, n: NodeId)
    returns (run': seq<Step>, t': State)
    requires RunsTo(s, run, t) && Stands(t, ref, v) && PcIn(t.pcs, Dispatcher(n)) == Returned(ref.jobId, Dispatched)
    requires BatchIn(t.batches, n) != [] && BatchIn(t.batches, n)[1..] == [] && n !in t.retired
    requires BatchIn(t.batches, n)[0] in Owned(t.group, n)
    ensures RunsTo(s, run', t') && Stands(t', ref, v) && Ready(t', n)
    ensures t'.group.log == t.group.log && t'.group.cursor == t.group.cursor
    ensures BatchIn(t.batches, n)[0] in t'.group.acked && !Pending(t'.group, BatchIn(t.batches, n)[0])
  {
    AcksOwn(t, n);
    run', t' := Does(s, run, t, OnNode(n, Ack(true)));
  }

  lemma AcksOwn(t: State, n: NodeId)
    requires Reachable(t) && BatchIn(t.batches, n) != [] && BatchIn(t.batches, n)[0] in Owned(t.group, n)
    ensures var e, g := BatchIn(t.batches, n)[0], XAck(t.group, BatchIn(t.batches, n)[0]);
      e in g.acked && !Pending(g, e) && g.log == t.group.log && g.cursor == t.group.cursor
  {
    ReachableInv(t);
    AckConserves(t.group, BatchIn(t.batches, n)[0]);
  }
}
