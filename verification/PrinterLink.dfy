/** The cloud's end of a printer's socket: the registry of live sockets (cloud/link/registry.go), the order
    in which a connection is set up and torn down (cloud/link/hub.go), and the cached printer state that
    routing looks at (cloud/store/redis.go, eligible in cloud/dispatch/route.go). */
module PrinterLink {
  import opened Wrappers
  import opened PrinterSlots

  type Mailbox = string
  type Conn = nat

  // ----- the registry -----

  datatype Change = Added(mailbox: Mailbox, conn: Conn) | Removed(mailbox: Mailbox, conn: Conn)

  /** conn was the last one added for the mailbox, and has not been removed since. */
  ghost predicate LastAdded(history: seq<Change>, m: Mailbox, conn: Conn) {
    exists i :: 0 <= i < |history| && history[i] == Added(m, conn) && NotSince(history, i, m, conn)
  }

  ghost predicate NotSince(history: seq<Change>, i: int, m: Mailbox, conn: Conn) {
    forall k :: 0 <= i < k < |history| ==>
      !(history[k].Added? && history[k].mailbox == m) && history[k] != Removed(m, conn)
  }

  class Registry {
    var conns: map<Mailbox, Conn>
    ghost var history: seq<Change>

    /** Over any history of Add and Remove, the registry holds a connection iff it was the last one added
        for its mailbox and is not yet removed. */
    ghost predicate Valid()
      reads this
    {
      forall m: Mailbox, conn: Conn :: m in conns && conns[m] == conn <==> LastAdded(history, m, conn)
    }

    constructor ()
      ensures Valid() && conns == map[] && history == []
    {
      conns, history := map[], [];
    }

    method Add(m: Mailbox, conn: Conn)
      requires Valid()
      modifies this
      ensures Valid() && history == old(history) + [Added(m, conn)] && conns == old(conns)[m := conn]
    {
      Extends(history, Added(m, conn));
      conns := conns[m := conn];
      history := history + [Added(m, conn)];
    }

    /** Only if the entry still is this connection: a slow teardown must not undo a reconnect. */
    method Remove(m: Mailbox, conn: Conn)
      requires Valid()
      modifies this
      ensures Valid() && history == old(history) + [Removed(m, conn)]
      ensures conns == if m in old(conns) && old(conns)[m] == conn then old(conns) - {m} else old(conns)
    {
      Extends(history, Removed(m, conn));
      if m in conns && conns[m] == conn {
        conns := conns - {m};
      }
      history := history + [Removed(m, conn)];
    }

    /** A snapshot of the live sockets: one for each mailbox, in some order. */
    method Conns() returns (live: seq<Conn>, ghost mailboxes: seq<Mailbox>)
      ensures |live| == |conns|
      ensures forall conn: Conn :: conn in live <==> exists m: Mailbox :: m in conns && conns[m] == conn
      ensures |mailboxes| == |live| && (forall m: Mailbox :: m in mailboxes <==> m in conns)
      ensures forall i :: 0 <= i < |live| ==> mailboxes[i] in conns && live[i] == conns[mailboxes[i]]
      ensures forall i, k :: 0 <= i < k < |mailboxes| ==> mailboxes[i] != mailboxes[k]
    {
      live, mailboxes := [], [];
      var left := conns.Keys;
      while left != {}
        invariant left <= conns.Keys && |mailboxes| == |live| && |live| + |left| == |conns|
        invariant forall m: Mailbox :: m in conns <==> m in left || m in mailboxes
        invariant forall m: Mailbox :: m in mailboxes ==> m !in left
        invariant forall i :: 0 <= i < |live| ==> mailboxes[i] in conns && live[i] == conns[mailboxes[i]]
        invariant forall i, k :: 0 <= i < k < |mailboxes| ==> mailboxes[i] != mailboxes[k]
        decreases |left|
      {
        var m: Mailbox :| m in left;
        live, mailboxes := live + [conns[m]], mailboxes + [m];
        left := left - {m};
      }
      forall m: Mailbox | m in conns ensures conns[m] in live {
        assert m in mailboxes;
      }
    }
  }

  /** What one more change does to who was added last. */
  lemma Extends(history: seq<Change>, c: Change)
    ensures forall m: Mailbox, conn: Conn :: LastAdded(history + [c], m, conn) <==>
              c == Added(m, conn) ||
              (LastAdded(history, m, conn) && !(c.Added? && c.mailbox == m) && c != Removed(m, conn))
  {
    var h := history + [c];
    assert h[|history|] == c && forall k :: 0 <= k < |history| ==> h[k] == history[k];
    forall m: Mailbox, conn: Conn
      ensures LastAdded(h, m, conn) <==>
                c == Added(m, conn) ||
                (LastAdded(history, m, conn) && !(c.Added? && c.mailbox == m) && c != Removed(m, conn))
    {
      if c == Added(m, conn) {
        assert NotSince(h, |history|, m, conn);
      }
      if LastAdded(history, m, conn) && !(c.Added? && c.mailbox == m) && c != Removed(m, conn) {
        var i :| 0 <= i < |history| && history[i] == Added(m, conn) && NotSince(history, i, m, conn);
        assert h[i] == Added(m, conn) && NotSince(h, i, m, conn);
      }
      if LastAdded(h, m, conn) && c != Added(m, conn) {
        var i :| 0 <= i < |h| && h[i] == Added(m, conn) && NotSince(h, i, m, conn);
        assert i < |history| && history[i] == Added(m, conn);
        forall k | i < k < |history|
          ensures !(history[k].Added? && history[k].mailbox == m) && history[k] != Removed(m, conn)
        {
          assert h[k] == history[k];
        }
        assert NotSince(history, i, m, conn);
      }
    }
  }

  /** What one connection did to a registry. */
  ghost function ChangesOf(history: seq<Change>, conn: Conn): seq<Change> {
    if history == [] then []
    else ChangesOf(history[..|history| - 1], conn)
         + if history[|history| - 1].conn == conn then [history[|history| - 1]] else []
  }

  lemma ChangesSnoc(history: seq<Change>, c: Change, conn: Conn)
    ensures ChangesOf(history + [c], conn) == ChangesOf(history, conn) + if c.conn == conn then [c] else []
  {
    assert (history + [c])[..|history|] == history;
  }

  // ----- the printer state cache, and who writes it -----

  const PRINTER_STATE_TTL: nat := 90_000   // milliseconds

  datatype PrinterState = PrinterState(status: string, slots: map<string, SlotInfo>)

  /** A cache entry; the value is what SET wrote, None if it does not parse. */
  datatype Entry = Entry(value: Option<PrinterState>, writtenAt: nat)

  /** What a connection does, on any node. */
  datatype LinkEvent =
    | Registered | Subscribed | StateWritten(state: PrinterState) | Available | Unsubscribed | Deregistered

  datatype Stamped = Stamped(mailbox: Mailbox, conn: Conn, event: LinkEvent, at: nat)

  /** The events of one connection for its mailbox, among those of all. */
  function Own(log: seq<Stamped>, m: Mailbox, conn: Conn): seq<LinkEvent> {
    if log == [] then []
    else
      var e := log[|log| - 1];
      Own(log[..|log| - 1], m, conn) + if e.mailbox == m && e.conn == conn then [e.event] else []
  }

  lemma OwnSnoc(log: seq<Stamped>, e: Stamped, m: Mailbox, conn: Conn)
    ensures Own(log + [e], m, conn) == Own(log, m, conn) + if e.mailbox == m && e.conn == conn then [e.event] else []
  {
    assert (log + [e])[..|log|] == log;
  }

  /** After these events the connection's dispatch subscription is acknowledged and open. */
  predicate IsSubscribed(events: seq<LinkEvent>) {
    events != []
    && var last := events[|events| - 1];
      last.Subscribed? || (!last.Unsubscribed? && IsSubscribed(events[..|events| - 1]))
  }

  /** Some event acknowledged the subscription, and none after it closed it. */
  lemma {:induction false} SubscribedMeans(events: seq<LinkEvent>)
    ensures IsSubscribed(events) <==>
              exists k :: 0 <= k < |events| && events[k] == Subscribed
                          && forall i :: k < i < |events| ==> events[i] != Unsubscribed
  {
    if events != [] {
      var n := |events| - 1;
      SubscribedMeans(events[..n]);
      if events[n].Subscribed? {
        assert events[n] == Subscribed;
      } else if !events[n].Unsubscribed? && IsSubscribed(events[..n]) {
        var k :| 0 <= k < n && events[..n][k] == Subscribed
                 && forall i :: k < i < n ==> events[..n][i] != Unsubscribed;
        assert events[k] == Subscribed;
        forall i | k < i < |events| ensures events[i] != Unsubscribed {
          if i < n {
            assert events[..n][i] == events[i];
          }
        }
      }
    }
  }

  predicate JustWroteIdle(events: seq<LinkEvent>) {
    events != [] && events[|events| - 1].StateWritten? && events[|events| - 1].state.status == "idle"
  }

  lemma SubscribedSnoc(events: seq<LinkEvent>, e: LinkEvent)
    ensures IsSubscribed(events + [e]) <==> e.Subscribed? || (!e.Unsubscribed? && IsSubscribed(events))
    ensures JustWroteIdle(events + [e]) <==> e.StateWritten? && e.state.status == "idle"
  {
    assert (events + [e])[..|events|] == events;
  }

  /** An event may follow these: what invites others to dispatch to this socket needs the subscription, and
      availability is announced only right after the idle state was written. */
  predicate MayFollow(events: seq<LinkEvent>, e: LinkEvent) {
    && (e.StateWritten? || e.Available? ==> IsSubscribed(events))
    && (e.Available? ==> JustWroteIdle(events))
  }

  /** Every connection's events follow one another in this way. */
  ghost predicate InOrder(log: seq<Stamped>, now: nat) {
    forall i :: 0 <= i < |log| ==>
      log[i].at <= now && MayFollow(Own(log[..i], log[i].mailbox, log[i].conn), log[i].event)
  }

  lemma InOrderSnoc(log: seq<Stamped>, e: Stamped)
    requires InOrder(log, e.at) && MayFollow(Own(log, e.mailbox, e.conn), e.event)
    ensures InOrder(log + [e], e.at)
  {
    var l := log + [e];
    forall i | 0 <= i < |l|
      ensures l[i].at <= e.at && MayFollow(Own(l[..i], l[i].mailbox, l[i].conn), l[i].event)
    {
      if i < |log| {
        assert l[i] == log[i] && l[..i] == log[..i];
      } else {
        assert l[..i] == log;
      }
    }
  }

  /** The entries that a history of events leaves in the cache. */
  ghost function Replay(log: seq<Stamped>): map<Mailbox, Entry> {
    if log == [] then map[]
    else
      var e := log[|log| - 1];
      var before := Replay(log[..|log| - 1]);
      if e.event.StateWritten? then before[e.mailbox := Entry(Some(e.event.state), e.at)] else before
  }

  lemma ReplaySnoc(log: seq<Stamped>, e: Stamped)
    ensures Replay(log + [e]) ==
              if e.event.StateWritten? then Replay(log)[e.mailbox := Entry(Some(e.event.state), e.at)] else Replay(log)
  {
    assert (log + [e])[..|log|] == log;
  }

  /** log[i] is the last report for the mailbox, whichever connection wrote it. */
  ghost predicate IsLastReport(log: seq<Stamped>, m: Mailbox, i: int) {
    && 0 <= i < |log| && log[i].mailbox == m && log[i].event.StateWritten?
    && forall k :: i < k < |log| ==> !(log[k].mailbox == m && log[k].event.StateWritten?)
  }

  /** An entry is the last report, and there is none without a report. */
  lemma {:induction false} EntryIsLastReport(log: seq<Stamped>, m: Mailbox)
    ensures forall i :: IsLastReport(log, m, i) ==>
              m in Replay(log) && Replay(log)[m] == Entry(Some(log[i].event.state), log[i].at)
    ensures m in Replay(log) ==> exists i :: IsLastReport(log, m, i)
  {
    if log != [] {
      var n := |log| - 1;
      var prefix := log[..n];
      EntryIsLastReport(prefix, m);
      if log[n].mailbox == m && log[n].event.StateWritten? {
        assert IsLastReport(log, m, n);
      } else {
        forall i | IsLastReport(log, m, i) ensures IsLastReport(prefix, m, i) {}
        if m in Replay(log) {
          var i :| IsLastReport(prefix, m, i);
          assert IsLastReport(log, m, i);
        }
      }
    }
  }

  predicate HasRoom(state: PrinterState, slot: string) {
    slot in state.slots && state.slots[slot].current < state.slots[slot].max
  }

  /** The state keys in Redis, the clock, and the history of all connections of all nodes. */
  class Cache {
    var now: nat
    var entries: map<Mailbox, Entry>
    var log: seq<Stamped>

    /** Every connection keeps its order of events, and the entries are what the reports left. */
    ghost predicate Valid()
      reads this
    {
      InOrder(log, now) && entries == Replay(log)
    }

    constructor ()
      ensures Valid() && entries == map[] && log == []
    {
      now, entries, log := 0, map[], [];
    }

    /** LookupPrinterState: absent, or expired, is not an error. */
    function Lookup(m: Mailbox): Result<Option<PrinterState>>
      reads this
    {
      if m !in entries || now >= entries[m].writtenAt + PRINTER_STATE_TTL then Success(None)
      else if entries[m].value.None? then Failure("cached state does not parse")
      else Success(entries[m].value)
    }

    /** GetPrinterState: the same, with an idle printer without slots for an absent one. */
    function Get(m: Mailbox): Result<PrinterState>
      reads this
    {
      var r := Lookup(m);
      if r.Failure? then Failure(r.error)
      else if r.value.None? then Success(PrinterState("idle", map[]))
      else Success(r.value.value)
    }

    /** eligible: idle, and known room in the slot. */
    predicate Eligible(m: Mailbox, slot: string)
      reads this
    {
      var state := Get(m);
      && state.Success? && state.value.status == "idle" && HasRoom(state.value, slot)
    }

    /** Routing trusts exactly the mailbox's last report, while it is less than 90 seconds old and says idle
        with room; the always-idle default for an absent key never makes a job eligible. And the connection
        that wrote the report held an acknowledged dispatch subscription when it did. */
    lemma EligibleIsASubscribedReport(m: Mailbox, slot: string)
      requires Valid()
      ensures Eligible(m, slot) <==>
                exists i :: IsLastReport(log, m, i) && now < log[i].at + 90_000
                            && log[i].event.state.status == "idle" && slot in log[i].event.state.slots
                            && log[i].event.state.slots[slot].current < log[i].event.state.slots[slot].max
      ensures forall i :: IsLastReport(log, m, i) ==>
                log[i].at <= now && IsSubscribed(Own(log[..i], m, log[i].conn))
    {
      EntryIsLastReport(log, m);
    }

    /** What a lookup finds, and GetPrinterState makes of it: the mailbox's last report while it is fresh, and an
        idle printer without slots otherwise. */
    lemma GetIsTheLastReport(m: Mailbox, i: int)
      requires Valid()
      ensures IsLastReport(log, m, i) && now < log[i].at + 90_000 ==>
                Lookup(m) == Success(Some(log[i].event.state)) && Get(m) == Success(log[i].event.state)
      ensures (forall k :: IsLastReport(log, m, k) ==> now >= log[k].at + 90_000) ==>
                Lookup(m) == Success(None) && Get(m) == Success(PrinterState("idle", map[]))
    {
      EntryIsLastReport(log, m);
    }

    method Pass(d: nat)
      requires Valid()
      modifies this`now
      ensures Valid() && now == old(now) + d
    {
      now := now + d;
    }

    /** One more event of a connection, of which a report replaces the mailbox's entry. */
    method Record(m: Mailbox, conn: Conn, e: LinkEvent)
      requires Valid() && MayFollow(Own(log, m, conn), e)
      modifies this`entries, this`log
      ensures Valid() && log == old(log) + [Stamped(m, conn, e, now)]
      ensures entries == if e.StateWritten? then old(entries)[m := Entry(Some(e.state), now)] else old(entries)
      ensures Own(log, m, conn) == Own(old(log), m, conn) + [e]
    {
      var stamped := Stamped(m, conn, e, now);
      InOrderSnoc(log, stamped);
      OwnSnoc(log, stamped, m, conn);
      ReplaySnoc(log, stamped);
      if e.StateWritten? {
        entries := entries[m := Entry(Some(e.state), now)];
      }
      log := log + [stamped];
    }

    /** What another connection, of this node or another, may do to the cache and to the registry. */
    method OthersEvent(registry: Registry, m: Mailbox, other: Conn, e: LinkEvent, here: bool)
      requires Valid() && registry.Valid()
      modifies this`entries, this`log, registry
      ensures Valid() && registry.Valid()
      ensures forall k: Mailbox, conn: Conn :: conn != other ==> Own(log, k, conn) == Own(old(log), k, conn)
      ensures forall conn: Conn :: conn != other ==>
                ChangesOf(registry.history, conn) == ChangesOf(old(registry.history), conn)
    {
      if MayFollow(Own(log, m, other), e) {
        forall k: Mailbox, conn: Conn | conn != other
          ensures Own(log + [Stamped(m, other, e, now)], k, conn) == Own(log, k, conn)
        {
          OwnSnoc(log, Stamped(m, other, e, now), k, conn);
        }
        Record(m, other, e);
        forall conn: Conn | conn != other
          ensures ChangesOf(registry.history + [Added(m, other)], conn) == ChangesOf(registry.history, conn)
          ensures ChangesOf(registry.history + [Removed(m, other)], conn) == ChangesOf(registry.history, conn)
        {
          ChangesSnoc(registry.history, Added(m, other), conn);
          ChangesSnoc(registry.history, Removed(m, other), conn);
        }
        if here && e.Registered? {
          registry.Add(m, other);
        } else if here && e.Deregistered? {
          registry.Remove(m, other);
        }
      }
    }

    /** Meanwhile time passes, and other connections do what they may, any number of times. */
    method Interfere(registry: Registry, conn: Conn)
      requires Valid() && registry.Valid()
      modifies this, registry
      ensures Valid() && registry.Valid() && now >= old(now)
      ensures forall m: Mailbox :: Own(log, m, conn) == Own(old(log), m, conn)
      ensures ChangesOf(registry.history, conn) == ChangesOf(old(registry.history), conn)
    {
      var others: seq<(Mailbox, Conn, LinkEvent, bool)> := *;
      for i := 0 to |others|
        invariant Valid() && registry.Valid() && now >= old(now)
        invariant forall m: Mailbox :: Own(log, m, conn) == Own(old(log), m, conn)
        invariant ChangesOf(registry.history, conn) == ChangesOf(old(registry.history), conn)
      {
        var d: nat :| true;
        Pass(d);
        if others[i].1 != conn {
          OthersEvent(registry, others[i].0, others[i].1, others[i].2, others[i].3);
        }
      }
    }
  }

  // ----- one connection among them -----

  /** A frame of the printer. */
  datatype LinkFrame =
    | Register(mailbox: Mailbox, slots: map<string, SlotInfo>)
    | State(state: PrinterState)
    | Other

  /** How SetPrinterState ends: an error says nothing about whether the write was done. */
  datatype SetOutcome = Done | DoneUnseen | NotDone

  /** What SetPrinterState leaves behind. */
  function SetEvents(state: PrinterState, outcome: SetOutcome): seq<LinkEvent> {
    if outcome.NotDone? then [] else [StateWritten(state)]
  }

  /** What a state frame adds: the refresh, and the announcement of an idle printer if Redis took the refresh. */
  function StateEvents(state: PrinterState, outcome: SetOutcome): seq<LinkEvent> {
    SetEvents(state, outcome) + if outcome.Done? && state.status == "idle" then [Available] else []
  }

  lemma StateEventsSplit(events: seq<LinkEvent>, state: PrinterState, outcome: SetOutcome)
    ensures events + StateEvents(state, outcome)
            == events + SetEvents(state, outcome)
               + if outcome.Done? && state.status == "idle" then [Available] else []
  {
  }

  function FrameAdds(frame: LinkFrame, outcome: SetOutcome): seq<LinkEvent> {
    if frame.State? then StateEvents(frame.state, outcome) else []
  }

  /** The events of the first n frames. */
  function FrameEvents(frames: seq<LinkFrame>, sets: nat -> SetOutcome, n: nat): seq<LinkEvent>
    requires n <= |frames|
  {
    if n == 0 then [] else FrameEvents(frames, sets, n - 1) + FrameAdds(frames[n - 1], sets(n - 1))
  }

  /** Each state frame in turn is written and, if it says idle and Redis is seen to take it, announced; no other
      frame adds anything. */
  lemma FrameEventsStep(events: seq<LinkEvent>, frames: seq<LinkFrame>, sets: nat -> SetOutcome, n: nat)
    requires n < |frames|
    ensures FrameEvents(frames, sets, 0) == []
    ensures FrameEvents(frames, sets, n + 1) == FrameEvents(frames, sets, n) +
              match frames[n]
              case State(state) =>
                (if sets(n) == NotDone then [] else [StateWritten(state)])
                + (if sets(n) == Done && state.status == "idle" then [Available] else [])
              case Register(_, _) => []
              case Other => []
    ensures events + FrameEvents(frames, sets, n + 1)
            == events + FrameEvents(frames, sets, n) + FrameAdds(frames[n], sets(n))
  {
  }

  /** The events between the registration and the end. A register frame seeds the cache with an idle printer. */
  function ServeEvents(slots: map<string, SlotInfo>, frames: seq<LinkFrame>, acked: bool, seed: SetOutcome,
                       sets: nat -> SetOutcome): seq<LinkEvent>
  {
    if !acked then []
    else [Subscribed] + SetEvents(PrinterState("idle", slots), seed) + FrameEvents(frames, sets, |frames|)
  }

  lemma ServeEventsSplit(events: seq<LinkEvent>, slots: map<string, SlotInfo>, frames: seq<LinkFrame>, acked: bool,
                         seed: SetOutcome, sets: nat -> SetOutcome)
    ensures events + ServeEvents(slots, frames, acked, seed, sets)
            == if !acked then events
               else events + [Subscribed] + SetEvents(PrinterState("idle", slots), seed)
                    + FrameEvents(frames, sets, |frames|)
  {
    Regroup(events, [Subscribed], SetEvents(PrinterState("idle", slots), seed), FrameEvents(frames, sets, |frames|));
    if !acked {
      assert events + [] == events;
    }
  }

  lemma Regroup<T>(a: seq<T>, b: seq<T>, c: seq<T>, d: seq<T>)
    ensures a + (b + c + d) == a + b + c + d
  {
  }

  /** So far this connection did these events and these changes to the registry, whatever others did. */
  ghost predicate Did(registry: Registry, cache: Cache, m: Mailbox, conn: Conn, events: seq<LinkEvent>,
                      changes: seq<Change>)
    reads registry, cache
  {
    && registry.Valid() && cache.Valid()
    && Own(cache.log, m, conn) == events && ChangesOf(registry.history, conn) == changes
  }

  method Meanwhile(registry: Registry, cache: Cache, m: Mailbox, conn: Conn, ghost events: seq<LinkEvent>,
                   ghost changes: seq<Change>)
    requires Did(registry, cache, m, conn, events, changes)
    modifies cache, registry
    ensures Did(registry, cache, m, conn, events, changes)
  {
    cache.Interfere(registry, conn);
  }

  /** The write of this connection's state. */
  method SetPrinterState(registry: Registry, cache: Cache, m: Mailbox, conn: Conn, state: PrinterState,
                         outcome: SetOutcome, ghost events: seq<LinkEvent>, ghost changes: seq<Change>)
    returns (err: bool)
    requires Did(registry, cache, m, conn, events, changes) && IsSubscribed(events)
    modifies cache`entries, cache`log
    ensures err == !outcome.Done?
    ensures Did(registry, cache, m, conn, events + SetEvents(state, outcome), changes)
    ensures IsSubscribed(events + SetEvents(state, outcome))
    ensures cache.entries ==
              if outcome.NotDone? then old(cache.entries)
              else old(cache.entries)[m := Entry(Some(state), cache.now)]
  {
    SubscribedSnoc(events, StateWritten(state));
    if outcome.NotDone? {
      assert events + [] == events;
    } else {
      cache.Record(m, conn, StateWritten(state));
    }
    return !outcome.Done?;
  }

  /** onState: refresh the cache, mirror the state to the database, and announce the printer if it is idle. */
  method OnState(registry: Registry, cache: Cache, m: Mailbox, conn: Conn, state: PrinterState, outcome: SetOutcome,
                 ghost events: seq<LinkEvent>, ghost changes: seq<Change>)
    requires Did(registry, cache, m, conn, events, changes) && IsSubscribed(events)
    modifies cache, registry
    ensures Did(registry, cache, m, conn, events + StateEvents(state, outcome), changes)
    ensures IsSubscribed(events + StateEvents(state, outcome))
    ensures Own(cache.log, m, conn) == events
              + (if outcome == NotDone then [] else [StateWritten(state)])
              + (if outcome == Done && state.status == "idle" then [Available] else [])
  {
    ghost var written := events + SetEvents(state, outcome);
    StateEventsSplit(events, state, outcome);
    var err := SetPrinterState(registry, cache, m, conn, state, outcome, events, changes);
    if err {
      return;
    }
    Meanwhile(registry, cache, m, conn, written, changes);
    if state.status == "idle" {
      SubscribedSnoc(written, Available);
      cache.Record(m, conn, Available);
    }
  }

  method ReadFrame(registry: Registry, cache: Cache, m: Mailbox, conn: Conn, frame: LinkFrame, outcome: SetOutcome,
                   ghost events: seq<LinkEvent>, ghost changes: seq<Change>)
    requires Did(registry, cache, m, conn, events, changes) && IsSubscribed(events)
    modifies cache, registry
    ensures Did(registry, cache, m, conn, events + FrameAdds(frame, outcome), changes)
    ensures IsSubscribed(events + FrameAdds(frame, outcome))
  {
    Meanwhile(registry, cache, m, conn, events, changes);
    if frame.State? {
      OnState(registry, cache, m, conn, frame.state, outcome, events, changes);
    } else {
      assert events + [] == events;
    }
  }

  /** readLoop: frames until the socket fails. */
  method ReadLoop(registry: Registry, cache: Cache, m: Mailbox, conn: Conn, frames: seq<LinkFrame>,
                  sets: nat -> SetOutcome, ghost events: seq<LinkEvent>, ghost changes: seq<Change>)
    requires Did(registry, cache, m, conn, events, changes) && IsSubscribed(events)
    modifies cache, registry
    ensures Did(registry, cache, m, conn, events + FrameEvents(frames, sets, |frames|), changes)
  {
    ghost var done := events;
    for i := 0 to |frames|
      invariant Did(registry, cache, m, conn, done, changes) && IsSubscribed(done)
      invariant done == events + FrameEvents(frames, sets, i)
    {
      ReadFrame(registry, cache, m, conn, frames[i], sets(i), done, changes);
      FrameEventsStep(events, frames, sets, i);
      done := done + FrameAdds(frames[i], sets(i));
    }
    Meanwhile(registry, cache, m, conn, done, changes);
  }

  /** The part of Accept after the registration: subscribe, wait for the ack, seed the cache, read. */
  method Serve(registry: Registry, cache: Cache, m: Mailbox, conn: Conn, slots: map<string, SlotInfo>,
               frames: seq<LinkFrame>, acked: bool, seed: SetOutcome, sets: nat -> SetOutcome,
               ghost events: seq<LinkEvent>, ghost changes: seq<Change>)
    requires Did(registry, cache, m, conn, events, changes)
    modifies cache, registry
    ensures Did(registry, cache, m, conn, events + ServeEvents(slots, frames, acked, seed, sets), changes)
  {
    Meanwhile(registry, cache, m, conn, events, changes);
    ServeEventsSplit(events, slots, frames, acked, seed, sets);
    if !acked {
      return;
    }
    SubscribedSnoc(events, Subscribed);
    cache.Record(m, conn, Subscribed);
    ghost var open := events + [Subscribed];
    Meanwhile(registry, cache, m, conn, open, changes);
    var idle := PrinterState("idle", slots);
    var _ := SetPrinterState(registry, cache, m, conn, idle, seed, open, changes);
    ReadLoop(registry, cache, m, conn, frames, sets, open + SetEvents(idle, seed), changes);
  }

  /** Accept, on the frames the printer sends until its socket fails, while other connections come, report and
      go. The registry entry and the dispatch subscription are in place before the cache says anything, and
      every way out takes both down again. */
  method Accept(registry: Registry, cache: Cache, conn: Conn, first: LinkFrame, frames: seq<LinkFrame>,
                acked: bool, seed: SetOutcome, sets: nat -> SetOutcome)
    requires cache.Valid() && registry.Valid()
    modifies registry, cache
    ensures cache.Valid() && registry.Valid()
    ensures first.Register? && first.mailbox != "" ==>
              && Own(cache.log, first.mailbox, conn)
                 == Own(old(cache.log), first.mailbox, conn) + [Registered]
                    + (if acked then
                         [Subscribed]
                         + (if seed == NotDone then [] else [StateWritten(PrinterState("idle", first.slots))])
                         + FrameEvents(frames, sets, |frames|)
                       else [])
                    + [Unsubscribed] + [Deregistered]
              && ChangesOf(registry.history, conn)
                 == ChangesOf(old(registry.history), conn)
                    + [Added(first.mailbox, conn)] + [Removed(first.mailbox, conn)]
    ensures !(first.Register? && first.mailbox != "") ==>
              registry.history == old(registry.history) && cache.log == old(cache.log)
  {
    if !first.Register? || first.mailbox == "" {
      return;
    }
    var m := first.mailbox;
    ghost var events := Own(cache.log, m, conn) + [Registered];
    ghost var changes := ChangesOf(registry.history, conn) + [Added(m, conn)];
    ChangesSnoc(registry.history, Added(m, conn), conn);
    registry.Add(m, conn);
    cache.Record(m, conn, Registered);
    Serve(registry, cache, m, conn, first.slots, frames, acked, seed, sets, events, changes);
    cache.Record(m, conn, Unsubscribed);
    cache.Interfere(registry, conn);
    ChangesSnoc(registry.history, Removed(m, conn), conn);
    cache.Record(m, conn, Deregistered);
    registry.Remove(m, conn);
  }
}
