/** The status relay: the hub commits a status and then publishes it (link/hub.go, onStatus), while
    GET /jobs/:id/stream subscribes, takes a snapshot of the row, and then relays (handlers/jobs.go). */
module StatusRelay {
  import opened Wrappers
  import opened Protocol
  import opened DispatchSafety
  import opened RowHistory

  // ----- what a stream should say -----

  /** The statuses of the decodable messages, up to and including the first terminal one. */
  function RelayOf(messages: seq<Option<Status>>): seq<Status> {
    if messages == [] then []
    else if messages[0].None? then RelayOf(messages[1..])
    else if Terminal(messages[0].value) then [messages[0].value]
    else [messages[0].value] + RelayOf(messages[1..])
  }

  /** Undecodable messages are skipped, and delivered and failed, and nothing else, end the relay. */
  lemma RelayOfMeans(m: Option<Status>, messages: seq<Option<Status>>)
    ensures RelayOf([]) == []
    ensures RelayOf([m] + messages) ==
              if m == None then RelayOf(messages)
              else if m == Some(Delivered) || m == Some(Failed) then [m.value]
              else [m.value] + RelayOf(messages)
  {
    assert ([m] + messages)[1..] == messages;
  }

  /** A whole stream: the snapshot, and what is relayed after it unless it was terminal already. */
  function Emission(snapshot: Status, messages: seq<Option<Status>>): seq<Status> {
    [snapshot] + if Terminal(snapshot) then [] else RelayOf(messages)
  }

  predicate EndsStream(emitted: seq<Status>) {
    emitted != [] && Terminal(emitted[|emitted| - 1])
  }

  /** No event but the last is terminal. */
  predicate OneTerminal(emitted: seq<Status>) {
    forall i :: 0 <= i < |emitted| - 1 ==> !Terminal(emitted[i])
  }

  lemma {:induction false} RelayedGrows(messages: seq<Option<Status>>, m: Option<Status>)
    ensures RelayOf(messages + [m]) ==
              RelayOf(messages) + if EndsStream(RelayOf(messages)) || m.None? then [] else [m.value]
    ensures OneTerminal(RelayOf(messages))
  {
    if messages == [] {
      assert [m][1..] == [];
    } else {
      assert (messages + [m])[0] == messages[0] && (messages + [m])[1..] == messages[1..] + [m];
      RelayedGrows(messages[1..], m);
    }
  }

  /** What comes after a terminal message is not relayed. */
  lemma {:induction false} RelayedStops(messages: seq<Option<Status>>, more: seq<Option<Status>>)
    ensures EndsStream(RelayOf(messages)) ==> RelayOf(messages + more) == RelayOf(messages)
    ensures RelayOf(messages) <= RelayOf(messages + more)
  {
    if messages == [] {
      assert messages + more == more;
    } else {
      assert (messages + more)[0] == messages[0] && (messages + more)[1..] == messages[1..] + more;
      RelayedStops(messages[1..], more);
    }
  }

  /** One message further along a stream that has not ended. */
  lemma EmissionGrows(snapshot: Status, channel: seq<Option<Status>>, i: nat)
    requires i < |channel| && !EndsStream(Emission(snapshot, channel[..i]))
    ensures Emission(snapshot, channel[..i + 1]) ==
              Emission(snapshot, channel[..i]) + if channel[i].None? then [] else [channel[i].value]
    ensures Emission(snapshot, channel[..i]) <= Emission(snapshot, channel)
    ensures EndsStream(Emission(snapshot, channel[..i + 1])) ==>
              Emission(snapshot, channel[..i + 1]) == Emission(snapshot, channel)
  {
    assert channel[..i + 1] == channel[..i] + [channel[i]];
    RelayedGrows(channel[..i], channel[i]);
    assert channel[..i] + channel[i..] == channel == channel[..i + 1] + channel[i + 1..];
    RelayedStops(channel[..i], channel[i..]);
    RelayedStops(channel[..i + 1], channel[i + 1..]);
  }

  lemma OnlyTheLastIsTerminal(snapshot: Status, channel: seq<Option<Status>>)
    ensures OneTerminal(Emission(snapshot, channel))
  {
    RelayedGrows(channel, None);
  }

  // ----- the handler's loop -----

  /** What a turn of the select finds: a message, and whether writing it would succeed; or a reason to stop. */
  datatype Turn = Arrives(message: Option<Status>, writable: bool) | ClientGone | Draining

  datatype End = AtTerminal | Disturbed | ChannelClosed

  /** The turn cuts the stream short. An undecodable message is not written, so it cannot. */
  predicate Disturbs(turn: Turn) {
    !turn.Arrives? || (turn.message.Some? && !turn.writable)
  }

  /** The messages up to the first disturbance. */
  function Undisturbed(turns: seq<Turn>): seq<Option<Status>> {
    if turns == [] || Disturbs(turns[0]) then [] else [turns[0].message] + Undisturbed(turns[1..])
  }

  /** The client leaving, the node draining and a failed write disturb, and nothing else does. */
  lemma UndisturbedMeans(turn: Turn, turns: seq<Turn>)
    ensures Undisturbed([]) == []
    ensures Undisturbed([turn] + turns) ==
              if turn == ClientGone || turn == Draining || (turn.message.Some? && !turn.writable) then []
              else [turn.message] + Undisturbed(turns)
  {
    assert ([turn] + turns)[1..] == turns;
  }

  predicate Calm(turns: seq<Turn>) {
    forall i :: 0 <= i < |turns| ==> !Disturbs(turns[i])
  }

  lemma {:induction false} UndisturbedGrows(turns: seq<Turn>, more: seq<Turn>)
    requires Calm(turns)
    ensures Undisturbed(turns + more) == Undisturbed(turns) + Undisturbed(more)
  {
    if turns == [] {
      assert turns + more == more;
    } else {
      assert (turns + more)[0] == turns[0] && (turns + more)[1..] == turns[1..] + more;
      UndisturbedGrows(turns[1..], more);
    }
  }

  /** The tail of StreamJob: write the snapshot, then every decodable message the channel delivers, until delivered
      or failed, a disturbance, or the end of the channel, and for no other reason does it end. */
  method StreamJob(snapshot: Status, writable: bool, turns: seq<Turn>) returns (emitted: seq<Status>, end: End)
    ensures emitted == if !writable then []
                       else [snapshot] + if snapshot == Delivered || snapshot == Failed then []
                                         else RelayOf(Undisturbed(turns))
    ensures forall i :: 0 <= i < |emitted| - 1 ==> emitted[i] != Delivered && emitted[i] != Failed
    ensures end == AtTerminal <==>
              emitted != [] && (emitted[|emitted| - 1] == Delivered || emitted[|emitted| - 1] == Failed)
    ensures end == ChannelClosed <==>
              && writable && end != AtTerminal
              && forall i :: 0 <= i < |turns| ==> turns[i].Arrives? && (turns[i].message.Some? ==> turns[i].writable)
  {
    OnlyTheLastIsTerminal(snapshot, Undisturbed(turns));
    if !writable {
      return [], Disturbed;
    }
    emitted := [snapshot];
    if Terminal(snapshot) {
      return emitted, AtTerminal;
    }
    for i := 0 to |turns|
      invariant Calm(turns[..i])
      invariant emitted == Emission(snapshot, Undisturbed(turns[..i])) && !EndsStream(emitted)
    {
      TurnGoesOn(snapshot, turns, i);
      match turns[i] {
        case ClientGone => return emitted, Disturbed;
        case Draining => return emitted, Disturbed;
        case Arrives(message, writes) =>
          if message.None? {
            continue;
          }
          if !writes {
            return emitted, Disturbed;
          }
          emitted := emitted + [message.value];
          if Terminal(message.value) {
            return emitted, AtTerminal;
          }
      }
    }
    assert turns[..|turns|] == turns;
    end := ChannelClosed;
  }

  /** One turn further along a stream that has not ended. */
  lemma TurnGoesOn(snapshot: Status, turns: seq<Turn>, i: nat)
    requires i < |turns| && Calm(turns[..i]) && !EndsStream(Emission(snapshot, Undisturbed(turns[..i])))
    ensures Disturbs(turns[i]) ==> Undisturbed(turns) == Undisturbed(turns[..i]) && !Calm(turns)
    ensures !Disturbs(turns[i]) ==>
              && Calm(turns[..i + 1])
              && Emission(snapshot, Undisturbed(turns[..i + 1])) ==
                   Emission(snapshot, Undisturbed(turns[..i])) + Written(turns[i])
              && (EndsStream(Emission(snapshot, Undisturbed(turns[..i + 1]))) ==>
                    Emission(snapshot, Undisturbed(turns[..i + 1])) == Emission(snapshot, Undisturbed(turns)))
  {
    MessagesSoFar(turns, i);
    if !Disturbs(turns[i]) {
      EmissionGrows(snapshot, Undisturbed(turns), i);
    }
  }

  /** While nothing disturbs, every turn is a message. */
  lemma MessagesSoFar(turns: seq<Turn>, i: nat)
    requires i < |turns| && Calm(turns[..i])
    ensures |Undisturbed(turns[..i])| == i
    ensures if Disturbs(turns[i]) then Undisturbed(turns) == Undisturbed(turns[..i])
            else i < |Undisturbed(turns)| && Undisturbed(turns)[i] == turns[i].message
                 && Undisturbed(turns)[..i] == Undisturbed(turns[..i])
                 && Undisturbed(turns)[..i + 1] == Undisturbed(turns[..i + 1])
    ensures Calm(turns[..i + 1]) <==> !Disturbs(turns[i])
    ensures Disturbs(turns[i]) ==> !Calm(turns)
  {
    CalmCounts(turns[..i]);
    assert turns == turns[..i] + turns[i..] && turns[i..][0] == turns[i];
    UndisturbedGrows(turns[..i], turns[i..]);
    assert turns[..i + 1] == turns[..i] + [turns[i]];
    UndisturbedGrows(turns[..i], [turns[i]]);
  }

  lemma {:induction false} CalmCounts(turns: seq<Turn>)
    requires Calm(turns)
    ensures |Undisturbed(turns)| == |turns|
  {
    if turns != [] {
      CalmCounts(turns[1..]);
    }
  }

  function Written(turn: Turn): seq<Status> {
    if turn.Arrives? && turn.message.Some? then [turn.message.value] else []
  }

  // ----- the hub and the handler side by side, for one job -----

  /** The job's row, and the status its hub has committed and not yet published. */
  datatype Env = Env(row: Option<Status>, pending: Option<Status>)

  datatype EnvStep =
    | Quiet
    | RowMoves(now: Status)               // inserts, claims and reverts, none of which is published
    | CommitRow(st: Status, seen: bool)      // onStatus: the row update; unseen, the hub was told it failed
    | PublishRow
    | PublishLost                         // PUBLISH failed, or the node died before it

  predicate EnvEnabled(e: Env, step: EnvStep) {
    match step
    case Quiet => true
    case RowMoves(now) =>
      (e.row.None? && now == Submitted) || (e.row.Some? && Rank(e.row.value) <= 1 && Rank(now) <= 1)
    case CommitRow(st, _) => e.row.Some? && e.pending.None? && Rank(e.row.value) < Rank(st) && Rank(st) >= 2
    case PublishRow => e.pending.Some?
    case PublishLost => e.pending.Some?
  }

  function EnvNext(e: Env, step: EnvStep): Env
    requires EnvEnabled(e, step)
  {
    match step
    case Quiet => e
    case RowMoves(now) => Env(Some(now), e.pending)
    case CommitRow(st, seen) => Env(Some(st), if seen then Some(st) else None)
    case PublishRow => e.(pending := None)
    case PublishLost => e.(pending := None)
  }

  datatype Phase = Starting | Subscribed | Streaming | Ended(end: End)

  datatype Relay = Relay(
    env: Env,
    published: seq<Option<Status>>,       // everything ever published on the job's channel; None is undecodable
    phase: Phase,
    from: nat,                            // the first message after the subscribe was acknowledged
    taken: nat,                           // messages the handler has received
    snapshot: Status,
    emitted: seq<Status>,
    lost: bool)                           // history: a terminal status was committed whose publish never happened

  datatype RelayStep = Hub(e: EnvStep) | Noise | Subscribe | Snapshot | Next | Disturb

  const Start := Relay(Env(None, None), [], Starting, 0, 0, Submitted, [], false)

  predicate RelayEnabled(r: Relay, step: RelayStep) {
    match step
    case Hub(e) => EnvEnabled(r.env, e)
    case Noise => true
    case Subscribe => r.phase.Starting? && r.env.row.Some?
    case Snapshot => r.phase.Subscribed? && r.env.row.Some?
    case Next => r.phase.Streaming? && r.from + r.taken < |r.published|
    case Disturb => !r.phase.Ended?
  }

  function HubNext(r: Relay, e: EnvStep): Relay
    requires EnvEnabled(r.env, e)
  {
    r.(env := EnvNext(r.env, e),
       published := if e.PublishRow? then r.published + [r.env.pending] else r.published,
       lost := r.lost || (e.CommitRow? && !e.seen && Terminal(e.st))
               || (e.PublishLost? && Terminal(r.env.pending.value)))
  }

  function RelayNext(r: Relay, step: RelayStep): Relay
    requires RelayEnabled(r, step)
  {
    match step
    case Hub(e) => HubNext(r, e)
    case Noise => r.(published := r.published + [None])
    case Subscribe => r.(phase := Subscribed, from := |r.published|)
    case Snapshot =>
      var st := r.env.row.value;
      r.(phase := if Terminal(st) then Ended(AtTerminal) else Streaming, snapshot := st, emitted := [st])
    case Next =>
      var m := r.published[r.from + r.taken];
      r.(taken := r.taken + 1,
         emitted := if m.Some? then r.emitted + [m.value] else r.emitted,
         phase := if m.Some? && Terminal(m.value) then Ended(AtTerminal) else Streaming)
    case Disturb => r.(phase := Ended(Disturbed))
  }

  ghost predicate ValidRelay(r: Relay, run: seq<RelayStep>)
    decreases |run|
  {
    run == [] || (RelayEnabled(r, run[0]) && ValidRelay(RelayNext(r, run[0]), run[1..]))
  }

  ghost function RelayExec(r: Relay, run: seq<RelayStep>): Relay
    requires ValidRelay(r, run)
    decreases |run|
  {
    if run == [] then r else RelayExec(RelayNext(r, run[0]), run[1..])
  }

  // ----- what every run keeps -----

  /** What goes over the channel climbs, and never beyond the row. */
  ghost predicate HubInv(r: Relay) {
    && (r.env.pending.Some? ==> r.env.row == r.env.pending && Rank(r.env.pending.value) >= 2)
    && (forall i :: 0 <= i < |r.published| && r.published[i].Some? ==>
          && r.env.row.Some? && 2 <= Rank(r.published[i].value) <= Rank(r.env.row.value)
          && (r.env.pending.Some? ==> Rank(r.published[i].value) < Rank(r.env.pending.value))
          && (Terminal(r.published[i].value) ==> r.published[i] == r.env.row && !r.lost))
    && Climbs(r.published)
    && (r.lost ==> r.env.row.Some? && Terminal(r.env.row.value) && r.env.pending.None?)
  }

  predicate Climbs(messages: seq<Option<Status>>) {
    forall i, k :: 0 <= i < k < |messages| && messages[i].Some? && messages[k].Some? ==>
                     Rank(messages[i].value) < Rank(messages[k].value)
  }

  function Received(r: Relay): seq<Option<Status>>
    requires r.from + r.taken <= |r.published|
  {
    r.published[r.from..r.from + r.taken]
  }

  ghost predicate StreamInv(r: Relay) {
    && r.from + r.taken <= |r.published|
    && (r.phase.Starting? || r.phase.Subscribed? ==> r.taken == 0 && r.emitted == [])
    && (r.emitted != [] ==> r.emitted == Emission(r.snapshot, Received(r)))
    && (r.phase.Streaming? ==> r.emitted != [] && !EndsStream(r.emitted))
    && (r.phase == Ended(AtTerminal) ==> EndsStream(r.emitted))
    && (Terminal(r.snapshot) ==> r.env.row == Some(r.snapshot))
    && r.phase != Ended(ChannelClosed)
  }

  ghost predicate InQueue(r: Relay, st: Status) {
    exists k :: r.from + r.taken <= k < |r.published| && r.published[k] == Some(st)
  }

  ghost predicate NoLossInv(r: Relay) {
    r.phase.Streaming? && r.env.row.Some? && Terminal(r.env.row.value) ==>
      r.env.pending.Some? || r.lost || InQueue(r, r.env.row.value)
  }

  ghost predicate RelayInv(r: Relay) {
    HubInv(r) && StreamInv(r) && NoLossInv(r)
  }

  lemma HubKeepsRelay(r: Relay, e: EnvStep)
    requires RelayInv(r) && EnvEnabled(r.env, e)
    ensures RelayInv(HubNext(r, e))
  {
    var r' := HubNext(r, e);
    assert Received(r') == Received(r);
    if r.phase.Streaming? && r.env.row.Some? && InQueue(r, r.env.row.value) {
      var k :| r.from + r.taken <= k < |r.published| && r.published[k] == r.env.row;
      assert r'.published[k] == r.env.row;
    }
    if e.PublishRow? {
      assert r'.published[|r.published|] == r.env.pending;
    }
  }

  lemma OneMoreTaken<T>(s: seq<T>, from: nat, n: nat)
    requires from + n < |s|
    ensures s[from..from + n + 1] == s[from..from + n] + [s[from + n]]
  {
  }

  lemma NextKeepsStream(r: Relay)
    requires StreamInv(r) && RelayEnabled(r, Next)
    ensures StreamInv(RelayNext(r, Next))
  {
    var r' := RelayNext(r, Next);
    var m := r.published[r.from + r.taken];
    OneMoreTaken(r.published, r.from, r.taken);
    assert Received(r') == Received(r) + [m];
    RelayedGrows(Received(r), m);
  }

  lemma NextKeepsNoLoss(r: Relay)
    requires NoLossInv(r) && RelayEnabled(r, Next)
    ensures NoLossInv(RelayNext(r, Next))
  {
    var r' := RelayNext(r, Next);
    if r'.phase.Streaming? && r.env.row.Some? && Terminal(r.env.row.value) && InQueue(r, r.env.row.value) {
      var k :| r.from + r.taken <= k < |r.published| && r.published[k] == r.env.row;
      assert r'.from + r'.taken <= k && r'.published[k] == r.env.row;
    }
  }

  lemma NoiseKeepsRelay(r: Relay)
    requires RelayInv(r) && RelayEnabled(r, Noise)
    ensures RelayInv(RelayNext(r, Noise))
  {
    var r' := RelayNext(r, Noise);
    assert Received(r') == Received(r);
    if r.phase.Streaming? && r.env.row.Some? && InQueue(r, r.env.row.value) {
      var k :| r.from + r.taken <= k < |r.published| && r.published[k] == r.env.row;
      assert r'.published[k] == r.env.row;
    }
  }

  lemma StepKeepsRelay(r: Relay, step: RelayStep)
    requires RelayInv(r) && RelayEnabled(r, step)
    ensures RelayInv(RelayNext(r, step))
  {
    match step
    case Hub(e) => HubKeepsRelay(r, e);
    case Next =>
      NextKeepsStream(r);
      NextKeepsNoLoss(r);
    case Noise => NoiseKeepsRelay(r);
    case Subscribe =>
    case Snapshot =>
      assert Received(r) == [];
    case Disturb =>
  }

  lemma {:induction false} RunKeepsRelay(r: Relay, run: seq<RelayStep>)
    requires RelayInv(r) && ValidRelay(r, run)
    ensures RelayInv(RelayExec(r, run))
    decreases |run|
  {
    if run != [] {
      StepKeepsRelay(r, run[0]);
      RunKeepsRelay(RelayNext(r, run[0]), run[1..]);
    }
  }

  // ----- the main results -----

  lemma {:induction false} RelayedClimbs(messages: seq<Option<Status>>)
    requires Climbs(messages)
    requires forall i :: 0 <= i < |messages| && messages[i].Some? ==> Rank(messages[i].value) >= 2
    ensures forall i, k :: 0 <= i < k < |RelayOf(messages)| ==> Rank(RelayOf(messages)[i]) < Rank(RelayOf(messages)[k])
    ensures forall i :: 0 <= i < |RelayOf(messages)| ==> Some(RelayOf(messages)[i]) in messages
  {
    if messages != [] {
      var rest := messages[1..];
      RelayedClimbs(rest);
      forall i | 0 <= i < |RelayOf(rest)| && messages[0].Some?
        ensures Rank(messages[0].value) < Rank(RelayOf(rest)[i])
      {
        var k :| 0 <= k < |rest| && rest[k] == Some(RelayOf(rest)[i]);
        assert messages[k + 1] == rest[k];
      }
    }
  }

  /** What a climbing channel, none of whose messages is beyond the row, makes of a stream. */
  predicate ChannelFits(messages: seq<Option<Status>>, row: Option<Status>) {
    && Climbs(messages)
    && forall i :: 0 <= i < |messages| && messages[i].Some? ==>
         2 <= Rank(messages[i].value) && (Terminal(messages[i].value) ==> messages[i] == row)
  }

  lemma ReceivedFits(r: Relay)
    requires HubInv(r) && r.from + r.taken <= |r.published|
    ensures ChannelFits(Received(r), r.env.row)
  {
    var got := Received(r);
    assert forall i :: 0 <= i < |got| ==> got[i] == r.published[r.from + i];
  }

  lemma RelayedFits(messages: seq<Option<Status>>, row: Option<Status>)
    requires ChannelFits(messages, row)
    ensures var e := RelayOf(messages);
      && (forall i, k :: 0 <= i < k < |e| ==> Rank(e[i]) < Rank(e[k]))
      && (forall i :: 0 <= i < |e| ==> 2 <= Rank(e[i]))
      && (EndsStream(e) ==> row == Some(e[|e| - 1]))
  {
    RelayedClimbs(messages);
    var e := RelayOf(messages);
    forall i | 0 <= i < |e| ensures 2 <= Rank(e[i]) && (Terminal(e[i]) ==> row == Some(e[i])) {
      var k :| 0 <= k < |messages| && messages[k] == Some(e[i]);
    }
  }

  /** In every interleaving: the handler has written the snapshot and then every message published since
      the subscribe was acknowledged, in order, up to the first delivered or failed; such a status is written
      once, as the last event, and then it is the row's. */
  lemma EverythingIsRelayedInOrder(run: seq<RelayStep>)
    requires ValidRelay(Start, run)
    ensures var r := RelayExec(Start, run);
      && r.from + r.taken <= |r.published|
      && (r.phase.Streaming? || r.phase == Ended(AtTerminal) ==>
            && r.emitted == [r.snapshot] + (if r.snapshot == Delivered || r.snapshot == Failed then []
                                            else RelayOf(r.published[r.from..r.from + r.taken]))
            && forall i :: 0 <= i < |r.emitted| - 1 ==> r.emitted[i] != Delivered && r.emitted[i] != Failed)
      && (r.phase == Ended(AtTerminal) ==>
            && (r.emitted[|r.emitted| - 1] == Delivered || r.emitted[|r.emitted| - 1] == Failed)
            && r.env.row == Some(r.emitted[|r.emitted| - 1]))
      && (r.phase.Streaming? ==>
            r.emitted[|r.emitted| - 1] != Delivered && r.emitted[|r.emitted| - 1] != Failed)
  {
    RunKeepsRelay(Start, run);
    InOrderUpToTheEnd(RelayExec(Start, run));
  }

  lemma InOrderUpToTheEnd(r: Relay)
    requires RelayInv(r)
    ensures r.emitted != [] ==> r.emitted == Emission(r.snapshot, Received(r)) && OneTerminal(r.emitted)
    ensures r.phase == Ended(AtTerminal) ==> EndsStream(r.emitted) && r.env.row == Some(r.emitted[|r.emitted| - 1])
  {
    OnlyTheLastIsTerminal(r.snapshot, Received(r));
    ReceivedFits(r);
    RelayedFits(Received(r), r.env.row);
    var e := RelayOf(Received(r));
    if r.phase == Ended(AtTerminal) && !Terminal(r.snapshot) {
      assert r.emitted == [r.snapshot] + e && e != [];
      assert r.emitted[|r.emitted| - 1] == e[|e| - 1];
    }
  }

  /** The handler waits for an event that will never come: the row is terminal, and neither is its status
      among the messages still to be received nor is its publish still to happen. */
  ghost predicate Stuck(r: Relay) {
    && r.phase.Streaming? && (r.env.row == Some(Delivered) || r.env.row == Some(Failed))
    && r.env.pending.None?
    && forall k :: r.from + r.taken <= k < |r.published| ==> r.published[k] != r.env.row
  }

  /** A stream gets stuck exactly if a terminal status was committed, after its snapshot was taken, whose
      publish never happened. In particular the race between the commit, the publish, the subscribe and
      the snapshot loses nothing. */
  lemma StuckExactlyIfPublishLost(run: seq<RelayStep>)
    requires ValidRelay(Start, run)
    ensures var r := RelayExec(Start, run); Stuck(r) <==> r.phase.Streaming? && r.lost
  {
    RunKeepsRelay(Start, run);
  }

  /** It does happen: the hub's node dies between the commit and the publish. */
  lemma LostPublishSticks()
    ensures exists run: seq<RelayStep> :: ValidRelay(Start, run) && Stuck(RelayExec(Start, run))
  {
    var s0 := Hub(RowMoves(Submitted));
    var s3 := Hub(CommitRow(Delivered, true));
    var run := [s0, Subscribe, Snapshot, s3, Hub(PublishLost)];
    var r1 := RelayNext(Start, s0);
    var r2 := RelayNext(r1, Subscribe);
    var r3 := RelayNext(r2, Snapshot);
    var r4 := RelayNext(r3, s3);
    var r5 := RelayNext(r4, Hub(PublishLost));
    assert run[1..] == [Subscribe, Snapshot, s3, Hub(PublishLost)];
    assert run[1..][1..] == [Snapshot, s3, Hub(PublishLost)];
    assert run[1..][1..][1..] == [s3, Hub(PublishLost)];
    assert run[1..][1..][1..][1..] == [Hub(PublishLost)];
    assert run[1..][1..][1..][1..][1..] == [];
    assert ValidRelay(r4, [Hub(PublishLost)]) && RelayExec(r4, [Hub(PublishLost)]) == r5;
    assert ValidRelay(r3, run[1..][1..][1..]) && RelayExec(r3, run[1..][1..][1..]) == r5;
    assert ValidRelay(r2, run[1..][1..]) && RelayExec(r2, run[1..][1..]) == r5;
    assert ValidRelay(r1, run[1..]) && RelayExec(r1, run[1..]) == r5;
    assert ValidRelay(Start, run) && RelayExec(Start, run) == r5;
  }

  /** What the client sees never goes back, and the only event it can see twice is printing, once from the
      snapshot and once from the channel. */
  lemma EventsNeverGoBack(run: seq<RelayStep>, i: nat, k: nat)
    requires ValidRelay(Start, run)
    requires i < k < |RelayExec(Start, run).emitted|
    ensures var e := RelayExec(Start, run).emitted;
      Rank(e[i]) < Rank(e[k]) || (i == 0 && k == 1 && e[0] == Printing && e[1] == Printing)
  {
    RunKeepsRelay(Start, run);
    var r := RelayExec(Start, run);
    ReceivedFits(r);
    RelayedFits(Received(r), r.env.row);
    OnlyTheLastIsTerminal(r.snapshot, Received(r));
    var relayed := RelayOf(Received(r));
    assert r.emitted == [r.snapshot] + relayed && !Terminal(r.snapshot);
    assert r.emitted[k] == relayed[k - 1] && (i > 0 ==> r.emitted[i] == relayed[i - 1]);
    assert i == 0 ==> Rank(r.emitted[i]) <= 2 <= Rank(relayed[0]);
    assert k > 1 ==> Rank(relayed[0]) < Rank(relayed[k - 1]) || k == 1;
  }

  // ----- the hub's side comes from the dispatch protocol -----

  function PendingOf(hub: HubStage): Option<Status> {
    if hub.Applied? || hub.Audited? then Some(hub.st) else None
  }

  function EnvAt(s: State, j: JobId): Env {
    Env(RowIn(s.rows, j), PendingOf(LinkIn(s.links, j).hub))
  }

  function EnvOfLink(l: Link, ls: LinkStep): EnvStep {
    if ls.HubApply? && ls.applied && l.wire != [] then CommitRow(l.wire[0], ls.ok)
    else if ls.HubRelay? then (if ls.sent then PublishRow else PublishLost)
    else if ls.HubDies? && PendingOf(l.hub).Some? then PublishLost
    else Quiet
  }

  /** What a protocol step means to a watcher of job j. */
  function EnvOf(s: State, step: Step, j: JobId): EnvStep {
    match step
    case Submit(ref) => if ref.jobId == j then RowMoves(Submitted) else Quiet
    case Attempts(a, at) =>
      var pc := PcIn(s.pcs, a);
      if at.Commit? && pc.Marked? && pc.job == j then RowMoves(Dispatching)
      else if at.Requeue? && at.applied && pc.Reverting? && pc.job == j then RowMoves(Queued)
      else Quiet
    case OnLink(k, ls) => if k != j then Quiet else EnvOfLink(LinkIn(s.links, j), ls)
    case _ => Quiet
  }

  /** An attempt's effect on a watched row. */
  lemma AttemptMovesRow(s: State, a: Actor, at: Attempt, j: JobId)
    requires AttemptEnabled(s, a, at) && (at.Requeue? ==> PcIn(s.pcs, a).job in s.rows)
    ensures RowIn(AttemptRows(s, a, at), j) ==
              match EnvOf(s, Attempts(a, at), j)
              case RowMoves(st) => Some(st)
              case _ => RowIn(s.rows, j)
  {
  }

  /** It moves the row while no status of the printer is about. */
  lemma AttemptMayMoveRow(s: State, a: Actor, at: Attempt, j: JobId)
    requires SafetyInv(s) && AttemptEnabled(s, a, at)
    ensures at.Requeue? ==> PcIn(s.pcs, a).job in s.rows
    ensures EnvEnabled(EnvAt(s, j), EnvOf(s, Attempts(a, at), j))
  {
    assert LinkFits(RowIn(s.rows, j), CountIn(s.published, j), LinkIn(s.links, j));
    assert at.Commit? ==> InClaimTx(PcIn(s.pcs, a), PcIn(s.pcs, a).job);
    assert at.Requeue? ==> HasToken(PcIn(s.pcs, a), PcIn(s.pcs, a).job);
  }

  lemma AttemptDrivesTheRelay(s: State, a: Actor, at: Attempt, j: JobId)
    requires SafetyInv(s) && AttemptEnabled(s, a, at)
    ensures EnvEnabled(EnvAt(s, j), EnvOf(s, Attempts(a, at), j))
    ensures EnvNext(EnvAt(s, j), EnvOf(s, Attempts(a, at), j)) == EnvAt(ApplyAttempt(s, a, at), j)
  {
    AttemptMayMoveRow(s, a, at, j);
    AttemptMovesRow(s, a, at, j);
    assert LinkIn(ApplyAttempt(s, a, at).links, j).hub == LinkIn(s.links, j).hub;
  }

  lemma LinkDrivesTheRelay(row: Option<Status>, published: nat, l: Link, ls: LinkStep)
    requires LinkFits(row, published, l) && LinkEnabled(row, l, ls)
    ensures var e := Env(row, PendingOf(l.hub));
      && EnvEnabled(e, EnvOfLink(l, ls))
      && EnvNext(e, EnvOfLink(l, ls)) == Env(RowNext(row, l, ls), PendingOf(LinkNext(row, l, ls).hub))
  {
  }

  lemma AfterLinkStep(s: State, k: JobId, ls: LinkStep, j: JobId)
    requires Enabled(s, OnLink(k, ls))
    ensures EnvAt(ApplyLink(s, k, ls), j) ==
              if k != j then EnvAt(s, j)
              else Env(RowNext(RowIn(s.rows, j), LinkIn(s.links, j), ls),
                       PendingOf(LinkNext(RowIn(s.rows, j), LinkIn(s.links, j), ls).hub))
  {
  }

  lemma OtherStepsAreQuiet(s: State, step: Step, j: JobId)
    requires Enabled(s, step) && !step.Attempts? && !step.OnLink?
    ensures EnvEnabled(EnvAt(s, j), EnvOf(s, step, j))
    ensures EnvNext(EnvAt(s, j), EnvOf(s, step, j)) == EnvAt(Apply(s, step), j)
  {
  }

  /** The relay's assumptions about rows and publishes are theorems about the protocol: each of its steps,
      from any reachable state, is one of the relay's hub steps. */
  lemma ProtocolDrivesTheRelay(s: State, step: Step, j: JobId)
    requires Reachable(s) && Enabled(s, step)
    ensures EnvEnabled(EnvAt(s, j), EnvOf(s, step, j))
    ensures EnvNext(EnvAt(s, j), EnvOf(s, step, j)) == EnvAt(Apply(s, step), j)
  {
    ReachableIsSafe(s);
    match step
    case Attempts(a, at) => AttemptDrivesTheRelay(s, a, at, j);
    case OnLink(k, ls) =>
      assert LinkFits(RowIn(s.rows, k), CountIn(s.published, k), LinkIn(s.links, k));
      LinkDrivesTheRelay(RowIn(s.rows, k), CountIn(s.published, k), LinkIn(s.links, k), ls);
      AfterLinkStep(s, k, ls, j);
    case _ => OtherStepsAreQuiet(s, step, j);
  }
}
