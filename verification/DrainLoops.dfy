/** The two loops of the dispatcher (dispatch/dispatcher.go) on a group nobody else touches meanwhile:
    which entries one drain and one reclaim handle, in which order, how often, and what they leave
    pending. What a single attempt decides is the business of DispatchCode; here its verdict is arbitrary. */
module DrainLoops {
  import opened Wrappers
  import opened StreamGroup
  import opened DispatchLimits

  /** One call of handle: the entry, and whether it was acknowledged. */
  datatype Handled = Handled(id: EntryId, released: bool)

  function HandledIds(trace: seq<Handled>): set<EntryId> {
    set i: nat | i < |trace| :: trace[i].id
  }

  function Released(trace: seq<Handled>): set<EntryId> {
    set i: nat | i < |trace| && trace[i].released :: trace[i].id
  }

  predicate Rising(trace: seq<Handled>) {
    forall i, k :: 0 <= i < k < |trace| ==> trace[i].id < trace[k].id
  }

  predicate Consecutive(trace: seq<Handled>, first: EntryId) {
    forall i :: 0 <= i < |trace| ==> trace[i].id == first + i
  }

  predicate InRange(e: EntryId, lo: EntryId, hi: EntryId) {
    lo <= e < hi
  }

  function Range(lo: EntryId, hi: EntryId): set<EntryId> {
    set e: EntryId | lo <= e < hi && InRange(e, lo, hi)
  }

  function Min(x: nat, y: nat): nat {
    if x < y then x else y
  }

  /** The PELs after n took over taken and acknowledged released. */
  ghost predicate TookOver(g: Group, g': Group, n: NodeId, taken: set<EntryId>, released: set<EntryId>) {
    && g'.log == g.log && g'.discarded == g.discarded && g'.acked == g.acked + released
    && Owned(g', n) == Owned(g, n) + taken - released
    && forall m: NodeId :: m != n ==> Owned(g', m) == Owned(g, m) - taken
  }

  lemma Snoc(trace: seq<Handled>, h: Handled)
    ensures HandledIds(trace + [h]) == HandledIds(trace) + {h.id}
    ensures Released(trace + [h]) == Released(trace) + if h.released then {h.id} else {}
  {
    var t := trace + [h];
    assert t[|trace|] == h;
    forall i: nat | i < |trace| ensures t[i] == trace[i] {}
    assert forall e: EntryId :: e in HandledIds(trace) ==> e in HandledIds(t);
    assert forall e: EntryId :: e in Released(trace) ==> e in Released(t);
  }

  lemma AckReleases(g: Group, g': Group, n: NodeId, taken: set<EntryId>, released: set<EntryId>, e: EntryId)
    requires Conserved(g') && TookOver(g, g', n, taken, released)
    requires e in taken && e !in released && e in Owned(g', n)
    ensures Conserved(XAck(g', e)) && TookOver(g, XAck(g', e), n, taken, released + {e})
    ensures XAck(g', e).cursor == g'.cursor
  {
    AckConserves(g', e);
    assert e < g'.cursor && e !in g'.discarded;
    forall m: NodeId | m != n ensures Owned(XAck(g', e), m) == Owned(g, m) - taken {
      assert e !in Owned(g', m);
    }
  }

  predicate IdleEnough(touched: map<EntryId, nat>, now: nat, e: EntryId) {
    now >= (if e in touched then touched[e] else 0) + CLAIM_MIN_IDLE
  }

  function Touch(touched: map<EntryId, nat>, batch: seq<EntryId>, now: nat): map<EntryId, nat> {
    map e: EntryId | e in touched.Keys + (set x: EntryId | x in batch) :: if e in batch then now else touched[e]
  }

  lemma TouchedLater(touched: map<EntryId, nat>, batch: seq<EntryId>, now: nat)
    ensures forall e: EntryId :: e !in batch && IdleEnough(touched, now, e) ==>
              IdleEnough(Touch(touched, batch, now), now, e)
  {
  }

  class Loop {
    const node: NodeId
    const done: EntryId -> bool           // Retry's verdict on each message
    const calm: bool                      // no command to Redis fails, and nobody cancels the loop
    var g: Group
    var now: nat
    var touched: map<EntryId, nat>        // when each entry was last handed to a consumer
    ghost var emptyMidScan: bool          // Redis has answered an XAUTOCLAIM with nothing before the end of its scan

    constructor (node: NodeId, done: EntryId -> bool, calm: bool, g: Group)
      requires Conserved(g)
      ensures this.g == g && this.node == node && this.done == done && this.calm == calm
    {
      this.done, this.calm := done, calm;
      this.node, this.g, now, touched, emptyMidScan := node, g, 0, map[], false;
    }

    /** Only what is done is acknowledged; in calm all of it. */
    predicate Judged(handled: seq<Handled>) {
      forall i :: 0 <= i < |handled| ==>
        (handled[i].released ==> done(handled[i].id)) && (calm ==> handled[i].released == done(handled[i].id))
    }

    /** handle: Retry, and XACK if the message is done. Retry takes its time, and XACK may fail. */
    method Handle(e: EntryId) returns (released: bool)
      modifies this
      ensures Judged([Handled(e, released)])
      ensures g == (if released then XAck(old(g), e) else old(g))
      ensures touched == old(touched) && now >= old(now) && emptyMidScan == old(emptyMidScan)
    {
      var ackFails: bool, elapsed: nat := *, *;
      released := done(e) && (calm || !ackFails);
      if released {
        g := XAck(g, e);
      }
      now := now + elapsed;
    }

    /** The same within a batch: what this consumer took over shrinks by the message, if it is done. */
    method HandleNext(e: EntryId, ghost before: Group, ghost taken: set<EntryId>, ghost sofar: seq<Handled>)
      returns (released: bool)
      requires Conserved(g) && TookOver(before, g, node, taken, Released(sofar))
      requires e in taken && e in Owned(g, node)
      modifies this
      ensures Conserved(g) && TookOver(before, g, node, taken, Released(sofar + [Handled(e, released)]))
      ensures forall x: EntryId :: x != e && x in Owned(old(g), node) ==> x in Owned(g, node)
      ensures g.cursor == old(g.cursor) && touched == old(touched) && now >= old(now)
      ensures emptyMidScan == old(emptyMidScan) && Judged([Handled(e, released)])
    {
      AckReleases(before, g, node, taken, Released(sofar), e);
      released := Handle(e);
      Snoc(sofar, Handled(e, released));
    }

    /** The messages of one reply, in order. The context is looked at after each of them. */
    method HandleBatch(batch: seq<EntryId>, ghost before: Group, ghost taken: set<EntryId>, ghost sofar: seq<Handled>)
      returns (handled: seq<Handled>, cancelled: bool)
      requires Conserved(g) && TookOver(before, g, node, taken, Released(sofar))
      requires forall i :: 0 <= i < |batch| ==> batch[i] in taken && batch[i] in Owned(g, node)
      requires forall i, k :: 0 <= i < k < |batch| ==> batch[i] < batch[k]
      modifies this
      ensures Conserved(g) && TookOver(before, g, node, taken, Released(sofar + handled))
      ensures g.cursor == old(g.cursor) && touched == old(touched) && now >= old(now)
      ensures emptyMidScan == old(emptyMidScan)
      ensures |handled| <= |batch| && (forall i :: 0 <= i < |handled| ==> handled[i].id == batch[i])
      ensures !cancelled ==> |handled| == |batch|
      ensures cancelled ==> handled != [] && !calm
      ensures Judged(handled)
    {
      handled, cancelled := [], false;
      assert sofar + handled == sofar;
      while |handled| < |batch| && !cancelled
        invariant |handled| <= |batch| && (forall i :: 0 <= i < |handled| ==> handled[i].id == batch[i])
        invariant forall i :: |handled| <= i < |batch| ==> batch[i] in taken && batch[i] in Owned(g, node)
        invariant Conserved(g) && TookOver(before, g, node, taken, Released(sofar + handled))
        invariant g.cursor == old(g.cursor) && touched == old(touched) && now >= old(now)
        invariant emptyMidScan == old(emptyMidScan)
        invariant cancelled ==> handled != [] && !calm
        invariant Judged(handled)
        decreases |batch| - |handled|, !cancelled
      {
        var e := batch[|handled|];
        var released := HandleNext(e, before, taken, sofar + handled);
        assert sofar + handled + [Handled(e, released)] == sofar + (handled + [Handled(e, released)]);
        handled := handled + [Handled(e, released)];
        cancelled := *;
        cancelled := cancelled && !calm;
      }
    }

    /** One XREADGROUP for up to ten unseen entries. It may fail, and then its effect is unknown. */
    method ReadBatch(ghost before: Group, ghost released: set<EntryId>) returns (batch: seq<EntryId>, failed: bool)
      requires Conserved(before) && Conserved(g) && before.cursor <= g.cursor
      requires TookOver(before, g, node, Range(before.cursor, g.cursor), released)
      modifies this
      ensures Conserved(g) && old(g.cursor) <= g.cursor <= old(g.cursor) + READ_COUNT
      ensures TookOver(before, g, node, Range(before.cursor, g.cursor), released)
      ensures calm ==> !failed
      ensures !failed ==> g.cursor == Min(old(g.cursor) + READ_COUNT, |g.log|) && batch == Ids(old(g.cursor), |batch|)
      ensures !failed ==> |batch| == g.cursor - old(g.cursor)
      ensures !failed ==> forall i :: 0 <= i < |batch| ==> batch[i] in Owned(g, node)
    {
      var applied: bool := *;
      failed := *;
      failed := failed && !calm;
      if failed && !applied {
        return [], true;
      }
      ReadTakesOver(before, g, node, released);
      batch := Ids(g.cursor, ReadCount(g, READ_COUNT));
      g := XReadGroup(g, node, READ_COUNT);
      touched := Touch(touched, batch, now);
    }

    /** drain. It hands this consumer the entries nobody has seen, oldest first, at most 200 of them, and
        handles each of them once and in that order; in calm exactly those that are done leave its PEL.
        Nothing else is touched: entries that were pending before, this consumer's own included, are not
        looked at again. Shutdown stops after the entry in hand; the rest of that batch then stays in this
        consumer's PEL. */
    method Drain() returns (handled: seq<Handled>, stop: Stop)
      requires Conserved(g)
      modifies this
      ensures Conserved(g)
      ensures forall i :: 0 <= i < |handled| ==> handled[i].id == old(g.cursor) + i
      ensures forall i :: 0 <= i < |handled| ==>
                (handled[i].released ==> done(handled[i].id)) && (calm ==> handled[i].released == done(handled[i].id))
      ensures calm ==> stop == Exhausted
      ensures stop == Exhausted ==>
                var unread := |old(g).log| - old(g.cursor);
                |handled| == if unread < 200 then unread else 200
      ensures stop == Exhausted ==> g.cursor == old(g.cursor) + |handled|
      ensures old(g.cursor) + |handled| <= g.cursor <= old(g.cursor) + |handled| + 10 && |handled| <= 200
      ensures g.log == old(g.log) && g.discarded == old(g.discarded) && g.acked == old(g.acked) + Released(handled)
      ensures forall e: EntryId :: e in Owned(g, node) <==>
                (e in Owned(old(g), node) || old(g.cursor) <= e < g.cursor) && e !in Released(handled)
      ensures forall m: NodeId :: m != node ==> Owned(g, m) == Owned(old(g), m)
    {
      handled, stop := [], Exhausted;
      ghost var before := g;
      for i := 0 to MAX_DRAIN_BATCHES
        invariant Conserved(g) && g.cursor == before.cursor + |handled|
        invariant |handled| == Min(i * READ_COUNT, Unread(before))
        invariant Consecutive(handled, before.cursor) && Judged(handled)
        invariant TookOver(before, g, node, Range(before.cursor, g.cursor), Released(handled))
      {
        var batch, failed := ReadBatch(before, Released(handled));
        if failed {
          return handled, CommandFailed;
        }
        if batch == [] {
          return;
        }
        var some, cancelled := HandleBatch(batch, before, Range(before.cursor, g.cursor), handled);
        handled := handled + some;
        if cancelled {
          return handled, Cancelled;
        }
      }
    }

    /** The scan of XAUTOCLAIM: up to ten pending entries idle for a minute, in order from start. Redis
        may stop a scan anywhere past start; next says where, None (0-0) that it saw the end. */
    method Scan(start: EntryId) returns (msgs: seq<EntryId>, next: Option<EntryId>)
      requires start <= g.cursor
      ensures forall i, k :: 0 <= i < k < |msgs| ==> msgs[i] < msgs[k]
      ensures |msgs| <= 10
      ensures forall e: EntryId :: e in msgs ==>
                start <= e && Pending(g, e) && now >= (if e in touched then touched[e] else 0) + 60_000
      ensures next.Some? ==> start < next.value < g.cursor && forall e: EntryId :: e in msgs ==> e < next.value
      ensures next.None? ==> forall e: EntryId :: e in msgs ==> e < g.cursor
      ensures forall e: EntryId :: (start <= e < (if next.Some? then next.value else g.cursor) && Pending(g, e)
                && now >= (if e in touched then touched[e] else 0) + 60_000) ==> e in msgs
    {
      var upto := start;
      var stops := false;
      msgs := [];
      while upto < g.cursor && |msgs| < READ_COUNT && !stops
        invariant start <= upto <= g.cursor && |msgs| <= READ_COUNT
        invariant forall i, k :: 0 <= i < k < |msgs| ==> msgs[i] < msgs[k]
        invariant forall i :: 0 <= i < |msgs| ==> msgs[i] < upto
        invariant forall e: EntryId :: e in msgs ==> start <= e && Pending(g, e) && IdleEnough(touched, now, e)
        invariant forall e: EntryId :: start <= e < upto && Pending(g, e) && IdleEnough(touched, now, e) ==> e in msgs
        invariant stops || |msgs| > 0 ==> start < upto
        decreases g.cursor - upto
      {
        if Pending(g, upto) && IdleEnough(touched, now, upto) {
          msgs := msgs + [upto];
        }
        upto := upto + 1;
        stops := *;
      }
      next := if upto == g.cursor then None else Some(upto);
    }

    /** XAUTOCLAIM: what the scan found is this consumer's from now on, and was touched just now. */
    method AutoClaim(start: EntryId, ghost before: Group, ghost taken: set<EntryId>, ghost released: set<EntryId>)
      returns (msgs: seq<EntryId>, next: Option<EntryId>)
      requires Conserved(g) && start <= g.cursor && released <= taken
      requires TookOver(before, g, node, taken, released)
      modifies this
      ensures Conserved(g) && now == old(now) && g.cursor == old(g.cursor)
      ensures emptyMidScan == (old(emptyMidScan) || (msgs == [] && next.Some?))
      ensures TookOver(before, g, node, taken + (set e: EntryId | e in msgs), released)
      ensures forall i :: 0 <= i < |msgs| ==> msgs[i] in Owned(g, node)
      ensures forall i, k :: 0 <= i < k < |msgs| ==> msgs[i] < msgs[k]
      ensures next.Some? ==> start < next.value < g.cursor
      ensures forall e: EntryId :: e in msgs ==> start <= e < (if next.Some? then next.value else g.cursor)
      ensures forall e: EntryId :: e in msgs ==> Pending(before, e) || e in taken
      ensures forall e: EntryId :: (start <= e < (if next.Some? then next.value else g.cursor) && e !in taken
                && Pending(before, e) && IdleEnough(old(touched), now, e)) ==> e in msgs
      ensures forall e: EntryId :: e !in msgs && IdleEnough(old(touched), now, e) ==> IdleEnough(touched, now, e)
    {
      msgs, next := Scan(start);
      emptyMidScan := emptyMidScan || (msgs == [] && next.Some?);
      AllStillPending(before, g, node, taken, released);
      TouchedLater(touched, msgs, now);
      Claim(msgs, before, taken, released);
    }

    /** What the scan found changes hands. */
    method Claim(msgs: seq<EntryId>, ghost before: Group, ghost taken: set<EntryId>, ghost released: set<EntryId>)
      requires Conserved(g) && TookOver(before, g, node, taken, released)
      requires forall e: EntryId :: e in msgs ==> Pending(g, e)
      modifies this
      ensures Conserved(g) && now == old(now) && g.cursor == old(g.cursor) && emptyMidScan == old(emptyMidScan)
      ensures TookOver(before, g, node, taken + (set e: EntryId | e in msgs), released)
      ensures forall e: EntryId :: e in msgs ==> e in Owned(g, node) && (Pending(before, e) || e in taken)
      ensures touched == Touch(old(touched), msgs, now)
    {
      ghost var claimed := set e: EntryId | e in msgs;
      ClaimTakesOver(before, g, node, taken, released, claimed);
      ClaimConserves(g, node, claimed);
      g := XAutoClaim(g, node, set e: EntryId | e in msgs);
      touched := Touch(touched, msgs, now);
    }

    ghost predicate Swept(before: Group, due: set<EntryId>, start: EntryId, handled: seq<Handled>)
      reads this
    {
      && Conserved(g) && start <= g.cursor == before.cursor
      && Ordered(before, start, handled)
      && DueBelow(before, due, start, HandledIds(handled)) && DueAbove(due, start, touched, now)
      && TookOver(before, g, node, HandledIds(handled), Released(handled))
    }

    /** One round of the loop: claim, then handle what was claimed. */
    method ReclaimRound(start: EntryId, handled: seq<Handled>, ghost before: Group, ghost due: set<EntryId>)
      returns (all: seq<Handled>, next: Option<EntryId>, empty: bool, stop: Stop, ghost taken: set<EntryId>)
      requires Swept(before, due, start, handled)
      modifies this
      ensures stop == Exhausted ==>
                Swept(before, due, if next.Some? then next.value else g.cursor, all) && taken == HandledIds(all)
      ensures next.Some? ==> start < next.value < g.cursor
      ensures old(emptyMidScan) || (empty && next.Some? && stop == Exhausted) ==> emptyMidScan
      ensures Conserved(g) && g.cursor == before.cursor
      ensures Ordered(before, g.cursor, all)
      ensures HandledIds(all) <= taken && TookOver(before, g, node, taken, Released(all))
      ensures calm ==> stop == Exhausted
      ensures Judged(handled) ==> Judged(all)
    {
      var fails: bool, applied: bool := *, *;
      fails := fails && !calm;
      all, next, empty, stop, taken := handled, None, true, CommandFailed, HandledIds(handled);
      if fails && !applied {
        return;
      }
      ghost var touched0, now0 := touched, now;
      var msgs: seq<EntryId>;
      msgs, next := AutoClaim(start, before, taken, Released(handled));
      ghost var upto := if next.Some? then next.value else g.cursor;
      taken := taken + set e: EntryId | e in msgs;
      if fails {
        return;
      }
      DueMovesOn(before, due, start, upto, HandledIds(handled), msgs, touched0, now0, touched);
      ghost var now1 := now;
      var some, cancelled := HandleBatch(msgs, before, taken, handled);
      all, empty, stop := handled + some, msgs == [], if cancelled then Cancelled else Exhausted;
      RoundInOrder(before, start, upto, handled, msgs, some);
    }

    /** reclaim. Every entry it handles was pending and is handled once, in rising order; it ends because
        the cursor rises. Unless Redis answers with nothing before the end of its scan, on which the loop
        gives up, it handles every entry that had been idle for a minute when it started. */
    method Reclaim() returns (handled: seq<Handled>, stop: Stop)
      requires Conserved(g)
      modifies this
      ensures Conserved(g) && g.cursor == old(g.cursor)
      ensures forall i, k :: 0 <= i < k < |handled| ==> handled[i].id < handled[k].id
      ensures forall i :: 0 <= i < |handled| ==>
                (handled[i].released ==> done(handled[i].id)) && (calm ==> handled[i].released == done(handled[i].id))
      ensures calm ==> stop == Exhausted
      ensures forall i :: 0 <= i < |handled| ==> Pending(old(g), handled[i].id)
      ensures stop == Exhausted && !emptyMidScan ==>
                forall e: EntryId :: (Pending(old(g), e)
                    && old(now) >= (if e in old(touched) then old(touched)[e] else 0) + 60_000) ==>
                  e in HandledIds(handled)
      ensures exists taken: set<EntryId> :: HandledIds(handled) <= taken
                && (stop == Exhausted ==> taken == HandledIds(handled))
                && TookOver(old(g), g, node, taken, Released(handled))
    {
      handled, stop := [], Exhausted;
      ghost var before := g;
      ghost var due := set e: EntryId | e < g.cursor && Pending(g, e) && IdleEnough(touched, now, e);
      var start := 0;
      while true
        invariant Swept(before, due, start, handled) && Judged(handled)
        decreases g.cursor - start
      {
        var next: Option<EntryId>, empty: bool;
        ghost var taken: set<EntryId>;
        handled, next, empty, stop, taken := ReclaimRound(start, handled, before, due);
        if stop != Exhausted || next == None || empty {
          return;
        }
        start := next.value;
      }
    }
  }

  /** Handled once each, in rising order, below a bound, and only what was pending. */
  ghost predicate Ordered(before: Group, bound: EntryId, handled: seq<Handled>) {
    && Rising(handled)
    && forall i :: 0 <= i < |handled| ==> handled[i].id < bound && Pending(before, handled[i].id)
  }

  /** Where a reclaim stands: everything due below start has been taken, everything above is idle still. */
  ghost predicate DueBelow(before: Group, due: set<EntryId>, start: EntryId, taken: set<EntryId>) {
    forall e: EntryId :: e in due ==> Pending(before, e) && (e < start ==> e in taken)
  }

  ghost predicate DueAbove(due: set<EntryId>, start: EntryId, touched: map<EntryId, nat>, now: nat) {
    forall e: EntryId :: e in due && start <= e ==> IdleEnough(touched, now, e)
  }

  lemma RoundInOrder(before: Group, start: EntryId, upto: EntryId, handled: seq<Handled>, msgs: seq<EntryId>,
                     some: seq<Handled>)
    requires Ordered(before, start, handled) && start <= upto
    requires forall i, k :: 0 <= i < k < |msgs| ==> msgs[i] < msgs[k]
    requires forall i :: 0 <= i < |msgs| ==> start <= msgs[i] < upto && Pending(before, msgs[i])
    requires |some| <= |msgs| && forall i :: 0 <= i < |some| ==> some[i].id == msgs[i]
    ensures Ordered(before, upto, handled + some)
    ensures HandledIds(handled + some) <= HandledIds(handled) + set e: EntryId | e in msgs
    ensures |some| == |msgs| ==> HandledIds(handled + some) == HandledIds(handled) + set e: EntryId | e in msgs
  {
    AppendIds(handled, some);
    forall e: EntryId | |some| == |msgs| && e in msgs ensures e in HandledIds(some) {
      var i: nat :| i < |msgs| && msgs[i] == e;
      assert some[i].id == e;
    }
  }

  lemma DueMovesOn(before: Group, due: set<EntryId>, start: EntryId, upto: EntryId, taken: set<EntryId>,
                   msgs: seq<EntryId>, touched0: map<EntryId, nat>, now: nat, touched: map<EntryId, nat>)
    requires DueBelow(before, due, start, taken) && DueAbove(due, start, touched0, now) && start <= upto
    requires forall e: EntryId :: e in taken ==> e < start
    requires forall e: EntryId :: e in msgs ==> start <= e < upto
    requires forall e: EntryId :: (start <= e < upto && e !in taken && Pending(before, e)
              && IdleEnough(touched0, now, e)) ==> e in msgs
    requires forall e: EntryId :: e !in msgs && IdleEnough(touched0, now, e) ==> IdleEnough(touched, now, e)
    ensures DueBelow(before, due, upto, taken + set e: EntryId | e in msgs)
    ensures DueAbove(due, upto, touched, now)
  {
  }

  lemma AppendIds(s: seq<Handled>, t: seq<Handled>)
    ensures HandledIds(s + t) == HandledIds(s) + HandledIds(t)
  {
    assert forall i :: |s| <= i < |s + t| ==> (s + t)[i] == t[i - |s|];
    forall e: EntryId | e in HandledIds(t) ensures e in HandledIds(s + t) {
      var i: nat :| i < |t| && t[i].id == e;
      assert (s + t)[|s| + i].id == e;
    }
    forall e: EntryId | e in HandledIds(s) ensures e in HandledIds(s + t) {
      var i: nat :| i < |s| && s[i].id == e;
      assert (s + t)[i].id == e;
    }
  }

  lemma AllStillPending(before: Group, g: Group, n: NodeId, taken: set<EntryId>, released: set<EntryId>)
    requires TookOver(before, g, n, taken, released) && released <= taken
    ensures forall e: EntryId :: Pending(before, e) && e !in taken ==> Pending(g, e)
  {
    forall e: EntryId | Pending(before, e) && e !in taken ensures Pending(g, e) {
      var m: NodeId :| e in Owned(before, m);
      assert e in Owned(g, m);
    }
  }

  /** One XAUTOCLAIM extends what this consumer has taken over. */
  lemma ClaimTakesOver(before: Group, g: Group, n: NodeId, taken: set<EntryId>, released: set<EntryId>,
                       claimed: set<EntryId>)
    requires Conserved(g) && TookOver(before, g, n, taken, released)
    requires forall e: EntryId :: e in claimed ==> Pending(g, e)
    ensures TookOver(before, XAutoClaim(g, n, claimed), n, taken + claimed, released)
    ensures forall e: EntryId :: e in claimed ==> e in Owned(XAutoClaim(g, n, claimed), n)
    ensures forall e: EntryId :: e in claimed ==> Pending(before, e) || e in taken
  {
    var g' := XAutoClaim(g, n, claimed);
    assert forall m: NodeId :: Owned(g', m) == if m == n then Owned(g, m) + claimed else Owned(g, m) - claimed;
    forall e: EntryId | e in claimed ensures e !in released && (Pending(before, e) || e in taken) {
      var m: NodeId :| e in Owned(g, m);
      assert e !in g.acked;
      assert e in Owned(before, m) || e in taken;
    }
  }

  function Unread(g: Group): nat {
    if g.cursor <= |g.log| then |g.log| - g.cursor else 0
  }

  /** One XREADGROUP extends what this consumer has taken over. */
  lemma ReadTakesOver(before: Group, g: Group, n: NodeId, released: set<EntryId>)
    requires Conserved(before) && Conserved(g) && before.cursor <= g.cursor
    requires TookOver(before, g, n, Range(before.cursor, g.cursor), released)
    ensures var g' := XReadGroup(g, n, READ_COUNT);
      && Conserved(g') && g'.cursor == g.cursor + ReadCount(g, READ_COUNT)
      && TookOver(before, g', n, Range(before.cursor, g'.cursor), released)
      && forall e: EntryId :: g.cursor <= e < g'.cursor ==> e in Owned(g', n)
  {
    ReadConserves(g, n, READ_COUNT);
    var g' := XReadGroup(g, n, READ_COUNT);
    assert forall e: EntryId :: e in released ==> e in g.acked && e < g.cursor;
    assert Owned(g', n) == Owned(g, n) + Range(g.cursor, g'.cursor) by {
      var ids := Ids(g.cursor, ReadCount(g, READ_COUNT));
      forall e: EntryId | e in Range(g.cursor, g'.cursor) ensures e in ids {
        assert ids[e - g.cursor] == e;
      }
    }
    assert Range(before.cursor, g'.cursor) == Range(before.cursor, g.cursor) + Range(g.cursor, g'.cursor);
    forall m: NodeId | m != n ensures Owned(g', m) == Owned(before, m) - Range(before.cursor, g'.cursor) {
      assert Owned(g', m) == Owned(g, m);
      assert forall e: EntryId :: e in Owned(before, m) ==> e < before.cursor;
    }
  }
}
