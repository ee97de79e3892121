/** The Redis side of the job queue: one stream, one consumer group, and the five commands the
    dispatcher sends to them (dispatch/dispatcher.go, dispatch/route.go). Entry ids are stream positions. */
module StreamGroup {
  import opened JobRefs

  type NodeId = nat
  type EntryId = nat

  datatype Group = Group(
    log: seq<Values>,                  // every XADDed message, oldest first
    cursor: nat,                       // the group's last-delivered position: ids below it were handed out
    pel: map<NodeId, set<EntryId>>,    // one pending-entries list per consumer
    acked: set<EntryId>,
    discarded: set<EntryId>)           // history only: entries dropped together with a deleted consumer

  const EmptyGroup := Group([], 0, map[], {}, {})

  function Owned(g: Group, n: NodeId): set<EntryId> {
    if n in g.pel then g.pel[n] else {}
  }

  predicate Pending(g: Group, e: EntryId) {
    exists n: NodeId :: n in g.pel && e in Owned(g, n)
  }

  // ----- commands -----

  function XAdd(g: Group, v: Values): Group {
    g.(log := g.log + [v])
  }

  /** How many entries XREADGROUP with ">" hands out. */
  function ReadCount(g: Group, count: nat): nat {
    if |g.log| < g.cursor then 0 else if |g.log| - g.cursor < count then |g.log| - g.cursor else count
  }

  function Ids(lo: nat, n: nat): (ids: seq<EntryId>)
    ensures |ids| == n && forall i :: 0 <= i < n ==> ids[i] == lo + i
  {
    seq(n, i requires 0 <= i => lo + i)
  }

  /** Entries no consumer of the group has seen yet move into n's PEL. */
  function XReadGroup(g: Group, n: NodeId, count: nat): Group {
    var ids := Ids(g.cursor, ReadCount(g, count));
    g.(cursor := g.cursor + |ids|, pel := g.pel[n := Owned(g, n) + set e: EntryId | e in ids])
  }

  /** The claimed entries leave whichever PEL held them and enter n's. */
  function XAutoClaim(g: Group, n: NodeId, claimed: set<EntryId>): Group {
    g.(pel := map c: NodeId | c in g.pel.Keys + {n} ::
         if c == n then Owned(g, n) + claimed else g.pel[c] - claimed)
  }

  /** XACK is group-wide: it names no consumer, so it empties the entry out of any PEL. */
  function XAck(g: Group, e: EntryId): Group {
    if Pending(g, e) then
      g.(pel := map c: NodeId | c in g.pel :: g.pel[c] - {e}, acked := g.acked + {e})
    else
      g
  }

  /** XGROUP DELCONSUMER drops the consumer together with its PEL. */
  function XGroupDelConsumer(g: Group, n: NodeId): Group {
    g.(pel := map c: NodeId | c in g.pel && c != n :: g.pel[c], discarded := g.discarded + Owned(g, n))
  }

  // ----- conservation -----

  /** Every XADDed entry is in exactly one place: not handed out yet, in the PEL of exactly one
      consumer, acknowledged, or discarded. */
  ghost predicate Conserved(g: Group) {
    && g.cursor <= |g.log|
    && (forall n: NodeId, e: EntryId {:trigger e in Owned(g, n)} :: e in Owned(g, n) ==>
          e < g.cursor && e !in g.acked && e !in g.discarded)
    && (forall m: NodeId, n: NodeId, e: EntryId :: e in Owned(g, m) && e in Owned(g, n) ==> m == n)
    && g.acked !! g.discarded
    && (forall e: EntryId :: e in g.acked || e in g.discarded ==> e < g.cursor)
    && (forall e: EntryId :: 0 <= e < g.cursor ==> Pending(g, e) || e in g.acked || e in g.discarded)
  }

  lemma AddConserves(g: Group, v: Values)
    requires Conserved(g)
    ensures Conserved(XAdd(g, v))
  {
    var g' := XAdd(g, v);
    assert forall n: NodeId :: Owned(g', n) == Owned(g, n);
    forall e: EntryId | 0 <= e < g'.cursor && Pending(g, e) ensures Pending(g', e) {
      var n: NodeId :| e in Owned(g, n);
      assert e in Owned(g', n);
    }
  }

  lemma ReadConserves(g: Group, n: NodeId, count: nat)
    requires Conserved(g)
    ensures Conserved(XReadGroup(g, n, count))
  {
    var g' := XReadGroup(g, n, count);
    var ids := Ids(g.cursor, ReadCount(g, count));
    var unseen := set e: EntryId | e in ids;
    assert forall e: EntryId :: e in unseen ==> g.cursor <= e < g'.cursor;
    assert Owned(g', n) == Owned(g, n) + unseen;
    assert forall c: NodeId | c != n :: Owned(g', c) == Owned(g, c);
    forall e: EntryId | 0 <= e < g'.cursor && e !in g'.acked && e !in g'.discarded ensures Pending(g', e) {
      if e < g.cursor {
        var c: NodeId :| e in Owned(g, c);
        assert e in Owned(g', c);
      } else {
        assert ids[e - g.cursor] == e;
        assert e in Owned(g', n);
      }
    }
  }

  lemma ClaimConserves(g: Group, n: NodeId, claimed: set<EntryId>)
    requires Conserved(g)
    requires forall e: EntryId :: e in claimed ==> Pending(g, e)
    ensures Conserved(XAutoClaim(g, n, claimed))
  {
    var g' := XAutoClaim(g, n, claimed);
    assert forall c: NodeId :: Owned(g', c) == if c == n then Owned(g, c) + claimed else Owned(g, c) - claimed;
    forall e: EntryId | 0 <= e < g'.cursor && e !in g'.acked && e !in g'.discarded ensures Pending(g', e) {
      var c: NodeId :| e in Owned(g, c);
      assert e in Owned(g', if e in claimed then n else c);
    }
  }

  lemma AckConserves(g: Group, e: EntryId)
    requires Conserved(g)
    ensures Conserved(XAck(g, e))
    ensures forall n: NodeId :: Owned(XAck(g, e), n) == Owned(g, n) - {e}
    ensures XAck(g, e).acked == if e < g.cursor && e !in g.discarded then g.acked + {e} else g.acked
  {
    var g' := XAck(g, e);
    if Pending(g, e) {
      assert forall c: NodeId :: Owned(g', c) == Owned(g, c) - {e};
      forall x: EntryId | 0 <= x < g'.cursor && x !in g'.acked && x !in g'.discarded ensures Pending(g', x) {
        var c: NodeId :| x in Owned(g, c);
        assert x in Owned(g', c);
      }
    } else {
      assert forall n: NodeId :: e !in Owned(g, n);
      assert forall n: NodeId :: Owned(g, n) - {e} == Owned(g, n);
      assert e in g.acked ==> g.acked + {e} == g.acked;
    }
  }

  /** Deleting a consumer keeps the books, but books its PEL under discarded. */
  lemma DelConsumerConserves(g: Group, n: NodeId)
    requires Conserved(g)
    ensures Conserved(XGroupDelConsumer(g, n))
    ensures XGroupDelConsumer(g, n).discarded == g.discarded <==> Owned(g, n) == {}
  {
    var g' := XGroupDelConsumer(g, n);
    assert forall c: NodeId :: Owned(g', c) == if c == n then {} else Owned(g, c);
    forall x: EntryId | 0 <= x < g'.cursor && x !in g'.acked && x !in g'.discarded ensures Pending(g', x) {
      var c: NodeId :| x in Owned(g, c);
      assert x in Owned(g', c);
    }
    if Owned(g, n) != {} {
      var e: EntryId :| e in Owned(g, n);
      assert e in g'.discarded && e !in g.discarded;
    }
  }
}
