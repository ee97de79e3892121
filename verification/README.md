# Automail in Dafny

A model of Automail's core and proofs about it. A sender's browser encrypts a document for one printer
and uploads it; cloud nodes that share one Postgres table and one Redis route the job to the printer's
socket, now or through a stream with a consumer group; the printer decrypts, prints, wipes and reports,
and the report travels back to the sender's browser.

`dafny verify dfyconfig.toml` checks everything. Nothing here runs the original program.

## How it is built

| part | files |
|---|---|
| dispatch as a state machine of single SQL and Redis commands, any number of nodes, crashes anywhere | `JobRefs`, `StreamGroup`, `Protocol` |
| its safety: claims, publishes, rows, audits, blobs | `DispatchSafety`, `RowHistory` |
| what becomes of a job when nothing goes wrong | `Delivery` |
| its queue: conservation, no loss, and the exact rules under which nothing is lost | `QueueSafety`, `DeleteRule`, `NoLoss`, `ReclaimRule` |
| the same on the clock: what the source's time limits make of these rules, and a run that loses a job | `TimedRuns`, `TimedLoss` |
| the nodes' and the hub's control flow, command by command with everybody else in between | `DispatchCode`, `HubCode` |
| the dispatcher's two loops, and its timing | `DispatchLimits`, `DrainLoops`, `LoopTiming` |
| the status relay | `StatusRelay` |
| the printer's link: registry, connection set-up, state cache | `PrinterSlots`, `PrinterLink` |
| shutdown | `Shutdown` |
| the printer: job pipeline, key derivation, key file, reconnecting | `PrinterJob`, `Pbkdf2`, `Pbes2`, `Backoff` |
| the document's way through all of it | `Bytes`, `Base64`, `DocumentPath` |
| shared | `Wrappers`, `Division` |

The state machine of `Protocol` is the reference. `DispatchCode` and `HubCode` are the source's control flow
as methods on a shared, mutable cluster: before each command all other actors take any number of steps, every
command may fail (with or without effect where the source cannot tell), and each method can only extend the
run by protocol steps, so whatever is proved of runs holds of the code. The replies and failures of a method's
own commands are its arguments, and the contracts say what it does for each of them; durations, randomness and
clocks are arbitrary choices.

## What came out

- From every reachable state a job for a ready printer can be delivered with nothing else moving, and one for a
  printer that is not ready is queued and dispatched later by any node (`ReadyJobIsDelivered`,
  `QueuedJobIsDispatched`).
- A job reaches a printer's socket at most once, whatever the interleaving. The claim transaction is one
  compare-and-set, and the unconditional `RequeueJob` and `UpdateJobStatus` only ever run where a guarded
  update would have succeeded.
- A queued job **can** be lost. A batch of ten messages may take 150 seconds while XAUTOCLAIM takes over
  messages after 60, so two nodes can work on one message. If one of them finds the job claimed
  ("settled") and acknowledges the message, and the other then finds no receiver and reverts its claim, the
  row is claimable again and its entry is gone. `QueuedJobCanBeLost` is such a run on the clock: five jobs in
  one reply, 15 seconds spent on each of the first four, and the fifth reclaimed just then. `LostForever` says
  that nothing brings the job back, and `ReclaimRuleIsExact` gives the exact condition: reclaiming is harmless
  if and only if no other dispatcher still has one of the messages to handle, its job being open.
- Within the source's time limits that takes a fourth message in a reply (`OverlapNeedsAFourthMessage`); with
  replies of at most three messages no timed run would lose a job (`SmallRepliesLoseNothing`).
- Likewise XPENDING followed by XGROUP DELCONSUMER is harmless if and only if the consumer reads no more,
  overlapping reclaims or not. The shutdown order guarantees that for a node's own consumer, the loop's timing
  for the reaper's, so no timed run ever discards an entry (`TimedRunsDiscardNothing`).
- A live loop is never silent for longer than 210 seconds plus other latency, which is below the reaper's
  300 seconds but not "an order of magnitude" below it, as `services/cloud/dispatch/dispatcher.go:30-39` has it.
- An entry left pending is retried by `reclaim` only. The comment of `handle`
  (`services/cloud/dispatch/dispatcher.go:173-176`) also expects the next availability event to retry it, but `drain`
  reads unseen messages only.
- An event stream gets stuck if and only if a terminal status was committed after its snapshot and never
  published.
- The backoff follows its ideal for every attempt if and only if the maximum is at most 327680 * 2^43 ns.

## Model

| member | source | states |
|---|---|---|
| JobRefs.JobRefRoundTrip | services/cloud/dispatch/route.go:86-127 | a job reference read back from the stream is the one that was queued, each field under its own name |
| JobRefs.IncompleteMessagesAreRefused | services/cloud/dispatch/route.go:96-127 | a message lacking a field, or holding a non-string there, is an error |
| Delivery.ReadyJobIsDelivered | services/cloud/dispatch/route.go:156-265 | from every reachable state a fresh job for a ready printer can be answered "dispatching", published once, and end delivered, with its audit rows, its blob removed and the stream as it was |
| Delivery.QueuedJobIsDispatched | services/cloud/dispatch/dispatcher.go:125-201 | from every reachable state a fresh job for a printer not ready can be answered "queued", and be read by any node at its loop, published once, and its entry acknowledged |
| StreamGroup.ReadConserves | services/cloud/dispatch/dispatcher.go:127-139 | XREADGROUP keeps every entry in exactly one place |
| StreamGroup.ClaimConserves | services/cloud/dispatch/dispatcher.go:218-225 | XAUTOCLAIM of pending entries keeps every entry in exactly one place |
| StreamGroup.AckConserves | services/cloud/dispatch/dispatcher.go:203-207 | XACK is group-wide: it empties the entry out of every pending list and books it as acknowledged |
| StreamGroup.DelConsumerConserves | services/cloud/dispatch/dispatcher.go:248-251 | XGROUP DELCONSUMER discards entries exactly if the consumer's pending list is not empty |
| DispatchSafety.AtMostOnePublish | services/cloud/dispatch/route.go:198-265 | in every run, over all interleavings and crashes, at most one dispatch publish of a job reaches a receiver |
| DispatchSafety.PublishesAreCounted | services/cloud/dispatch/route.go:242-254 | the count the invariants speak of is the number of such publishes in the run |
| DispatchSafety.OneClaimer | services/cloud/dispatch/route.go:350-384 | an open claim has one holder, its row is dispatching and unpublished, and nobody else is inside a claim transaction of the job |
| DispatchSafety.RunKeepsSafety | services/cloud/dispatch/route.go:198-265 | every run keeps the claim and link invariants |
| RowHistory.TableRefinesCompareAndSet | services/cloud/db/queries.sql.go:514-573 | every step changes the jobs table like a compare-and-set table: claims from claimable rows, reverts from dispatching ones, reports to later statuses |
| RowHistory.ClaimAnswers | services/cloud/dispatch/route.go:364-376 | claimSettled exactly on a row that is not claimable, claimLost exactly while another transaction holds the lock |
| RowHistory.ClaimsAndRevertsAlternate | services/cloud/dispatch/route.go:350-392 | claims and reverts of a job alternate, so two claims always have a revert between them |
| RowHistory.StatusNeverGoesBack | services/cloud/link/hub.go:213-246 | after the publish a row only climbs dispatching, printing, delivered or failed, and a terminal status is final |
| RowHistory.ProgressMeansPublished | services/cloud/link/hub.go:213-229 | a printing or terminal row has had its one publish |
| RowHistory.OneDeliveredAudit | services/cloud/link/hub.go:231-234 | at most one job_delivered audit row, and only for a delivered job |
| RowHistory.BlobsOutliveTheirJobs | services/cloud/link/hub.go:239-268 | with one blob per job, no blob is deleted while its job is undelivered |
| QueueSafety.EntriesAreConserved | services/cloud/dispatch/dispatcher.go:125-290 | in every reachable state each added entry is unseen, in one consumer's pending list, acknowledged or discarded, in only one of these, and nothing else is in any |
| QueueSafety.OneEntryAJob | services/cloud/dispatch/route.go:177-196 | however often it is retried a job has at most one stream entry, and every entry decodes |
| QueueSafety.FreshJobNeverSettles | services/cloud/dispatch/route.go:156-175 | the attempt of the handler that inserted the job never finds it settled |
| NoLoss.NoQueuedJobIsLost | services/cloud/dispatch/dispatcher.go:179-201 | in every disciplined run: once "queued" was answered, a job whose row is claimable has an entry that is unseen or pending, not acknowledged and not discarded |
| NoLoss.ClosedStays | services/cloud/dispatch/route.go:215-225 | a job past the queue without open claim stays past it for good |
| ReclaimRule.ReclaimRuleIsExact | services/cloud/dispatch/dispatcher.go:215-242 | a reclaim leaves every disciplined continuation unable to acknowledge away a claimable job if and only if no other dispatcher still has one of the messages to handle, its job being open |
| ReclaimRule.LostForever | services/cloud/dispatch/dispatcher.go:190-201 | no continuation of any run moves such a job's row again or publishes it |
| DeleteRule.NoEntryIsDiscarded | services/cloud/dispatch/dispatcher.go:256-330 | in every run that deletes only consumers which read no more, whatever is reclaimed from whom, neither RemoveConsumer nor the reaper discards an entry |
| DeleteRule.DeleteRuleIsExact | services/cloud/dispatch/dispatcher.go:271-290 | after an empty XPENDING, no continuation under the delete rule discards anything if and only if the consumer reads no more; overlapping reclaims are allowed before and after |
| TimedRuns.TimedRunsDiscardNothing | services/cloud/dispatch/dispatcher.go:28-39 | in every run on the clock, in which consumers are deleted on XINFO's idle time of 300 seconds or after their own loop returned, and live loops keep their timing, no entry is ever discarded |
| TimedRuns.OverlapNeedsAFourthMessage | services/cloud/dispatch/dispatcher.go:19-26 | in every run on the clock, a reclaim takes a message from a dispatcher that still has it to handle only if that dispatcher has finished three of the same reply |
| TimedRuns.SmallRepliesLoseNothing | services/cloud/dispatch/dispatcher.go:215-242 | so with at most three messages in a reply every claimable job answered "queued" would have an entry unseen or pending, in every run on the clock |
| TimedLoss.OverlapIsReachable | services/cloud/dispatch/dispatcher.go:149-158 | a run on the clock that keeps both rules comes, a minute after a reply of five of which node 0 has finished four, to a timely reclaim that breaks the reclaim rule |
| TimedLoss.QueuedJobCanBeLost | services/cloud/dispatch/dispatcher.go:190-201 | a run on the clock ends with a job answered "queued" whose row is claimable, its only entry acknowledged, and nobody holding it |
| DispatchCode.ClaimJob | services/cloud/dispatch/route.go:350-384 | settled exactly if its lock found the row neither submitted nor queued, lost exactly if it found it locked, an error exactly if a command failed; a won claim leaves the row dispatching, unpublished, with this actor as only claimer |
| DispatchCode.Revert | services/cloud/dispatch/route.go:386-392 | an error exactly if RequeueJob was not seen to succeed; the row is queued exactly if it took effect; either way the claim is gone |
| DispatchCode.AttemptDispatch | services/cloud/dispatch/route.go:198-265 | which replies make it dispatched, settled or blocked, given the row and lock its own LockJobForDispatch found, and no others; dispatched goes with one received publish of its own, the job's only one; no way out leaves a claim |
| DispatchCode.SendFrame | services/cloud/dispatch/route.go:226-254 | with the claim in hand: dispatched exactly if somebody received the publish, blocked exactly if nobody did and the row is queued again, else an error |
| DispatchCode.TryDispatch | services/cloud/dispatch/route.go:156-175 | "dispatching" exactly if the printer can take the job and every command succeeds, and then one publish of this request was received; "queued" exactly if it cannot go out and XADD succeeds; a 5xx exactly if a command of this request failed |
| DispatchCode.EnqueueJob | services/cloud/dispatch/route.go:398-407 | "queued" exactly if XADD was seen to succeed, and there is an entry of the job exactly if it took effect |
| DispatchCode.CreateJob | services/cloud/handlers/jobs.go:146-195 | the same of the answer of POST /jobs, where a failed insert or audit row is a 5xx too |
| DispatchCode.Handle | services/cloud/dispatch/dispatcher.go:179-201 | the attempt is for the entry's own job; one XACK if it does not decode, was dispatched or is settled, none if it is blocked or failed; an XACK that takes effect leaves the entry in nobody's pending list |
| DispatchCode.HandleBatch | services/cloud/dispatch/dispatcher.go:149-158 | every message of a reply is taken in hand once, up to the first after which the context is done, whatever everybody else does meanwhile |
| DispatchCode.Drain | services/cloud/dispatch/dispatcher.go:125-160 | under interference: at most 20 reads of at most 10 messages, ending at the first that is empty, fails or is cut short, and for no other reason; every message of the replies taken in hand once |
| DispatchCode.DeleteConsumerIfDrained | services/cloud/dispatch/dispatcher.go:271-290 | a consumer that reads no more is deleted with an empty pending list, however much happened since XPENDING; none is left alone unless a command failed or it holds entries |
| DispatchCode.ReapStaleConsumers | services/cloud/dispatch/dispatcher.go:308-330 | only consumers shown idle for 300 seconds with nothing pending and never its own are deleted, each with an empty pending list if it reads no more; and all such that are empty and read no more, unless a command fails |
| HubCode.OnStatus | services/cloud/link/hub.go:213-268 | for an applied frame exactly four commands go out in order, row, audit, publish, removal; the row then shows its status, its audit row is the newest, and after delivered the blob is gone, each unless that command failed |
| HubCode.WatchersAreTold | services/cloud/link/hub.go:234-236 | whoever watches the job is sent exactly that status, once, and no terminal status is lost, unless PUBLISH failed |
| HubCode.FrameMeetsNoClaim | services/cloud/link/hub.go:220 | the row update of a frame never meets an open claim transaction or a missing row |
| DrainLoops.Loop.Drain | services/cloud/dispatch/dispatcher.go:125-160 | alone: exactly the first min(200, unread) entries, each once, in stream order; exactly those that are done leave the pending list; cancelled, the rest of the batch stays pending too; nothing else is touched |
| DrainLoops.Loop.Scan | services/cloud/dispatch/dispatcher.go:218-225 | what XAUTOCLAIM finds: the idle pending entries from the cursor to where it stopped, in order, at most ten |
| DrainLoops.Loop.Reclaim | services/cloud/dispatch/dispatcher.go:215-242 | terminates by a rising cursor, handles only pending entries, each once in order, and all that were idle for a minute unless a reply is empty before the end |
| LoopTiming.Loop.Run | services/cloud/dispatch/dispatcher.go:79-106 | for any number of turns: a drain first, then one per available printer, and at each tick, every 60 seconds, a reclaim, a drain and the reaper; consecutive group commands are at most 210 seconds apart, other latency aside |
| LoopTiming.LiveConsumersAreNeverStale | services/cloud/dispatch/dispatcher.go:28-39 | with under 90 seconds of other latency in each gap the consumer's idle time never reaches the reaper's threshold |
| StatusRelay.StreamJob | services/cloud/handlers/jobs.go:280-336 | it writes the snapshot and every decodable message up to the first delivered or failed or the first disturbance; it ends at a terminal status exactly if delivered or failed was written, at the end of the channel exactly if nothing disturbed it |
| StatusRelay.RelayOfMeans | services/cloud/handlers/jobs.go:203-205 | undecodable messages are skipped, delivered and failed end the relay, and nothing else does |
| StatusRelay.UndisturbedMeans | services/cloud/handlers/jobs.go:290-336 | the client leaving, the node draining and a failed write cut a stream short, and nothing else does |
| StatusRelay.EverythingIsRelayedInOrder | services/cloud/handlers/jobs.go:254-336 | in every interleaving with the hub, everything published since the subscribe ack is relayed in order up to the terminal event, which is the row's status |
| StatusRelay.StuckExactlyIfPublishLost | services/cloud/handlers/jobs.go:254-290 | a stream waits in vain if and only if a terminal status was committed whose publish never happened |
| StatusRelay.LostPublishSticks | services/cloud/link/hub.go:219-237 | that happens: the node dies between commit and publish |
| StatusRelay.EventsNeverGoBack | services/cloud/handlers/jobs.go:254-263 | events never go back, and the only one seen twice is printing, from the snapshot and from the channel |
| StatusRelay.ProtocolDrivesTheRelay | services/cloud/link/hub.go:213-246 | the relay's assumptions about rows and publishes hold of every step of the dispatch protocol |
| PrinterLink.Registry.Add | services/cloud/link/registry.go:29-33 | the registry keeps holding a connection iff it was the last added for its mailbox and is not removed |
| PrinterLink.Registry.Remove | services/cloud/link/registry.go:52-58 | the same, so a slow teardown does not undo a reconnect |
| PrinterLink.Registry.Conns | services/cloud/link/registry.go:39-47 | the live connections, one for each mailbox |
| PrinterLink.Extends | services/cloud/link/registry.go:29-58 | how one more change moves "last added and not removed", for every history |
| PrinterLink.Cache.EligibleIsASubscribedReport | services/cloud/dispatch/route.go:283-309 | eligible exactly if the mailbox's last report, by whichever connection, is under 90 seconds old, says idle, and names the slot with fewer letters than its maximum; and that connection then held an acknowledged dispatch subscription |
| PrinterLink.Cache.GetIsTheLastReport | services/cloud/store/redis.go:39-69 | a lookup finds the last report while it is under 90 seconds old, and otherwise nothing, which GetPrinterState makes an idle printer without slots |
| PrinterLink.SubscribedMeans | services/cloud/link/hub.go:77-88 | subscribed is after an acknowledgement with no close since |
| PrinterLink.FrameEventsStep | services/cloud/link/hub.go:153-187 | each state frame in turn is written and, if idle and seen to be taken, announced; no other frame adds anything |
| PrinterLink.OnState | services/cloud/link/hub.go:171-187 | the cache is refreshed first, and availability announced exactly after an idle refresh that was seen to succeed, other connections interfering |
| PrinterLink.Cache.Record | services/cloud/link/hub.go:66-98 | one more event keeps every connection in order and the cache equal to the last reports, given the subscription where the event needs one |
| PrinterLink.Accept | services/cloud/link/hub.go:48-104 | a connection's exact events and registry changes, for all frames and failures while other connections come and go: the state key is written only while the dispatch subscription is acknowledged and open, and every way out unsubscribes and deregisters |
| Shutdown.Node.WaitFor | services/cloud/shutdown.go:44-51 | a failed wait means the deadline has passed, a successful one that the loop has returned |
| Shutdown.Node.RemoveConsumer | services/cloud/dispatch/dispatcher.go:256-267 | past the deadline nothing is sent; without error the consumer is deleted exactly if nothing is pending |
| Shutdown.Node.RunShutdown | services/cloud/shutdown.go:30-39 | for every list of steps that waits before it deletes: all attempted in order, and DELCONSUMER only after the loop returned |
| Shutdown.Node.GracefulShutdown | services/cloud/main.go:382-426 | the six steps of main's sequence are each attempted once, in its order, whichever fail: draining is signalled, the loop cancelled, the sockets told, both listeners shut, and the consumer deleted only after the loop returned |
| PrinterJob.OccupancyCounts | services/printer/print.go:48-57 | n deliveries raise a slot's occupancy to min(before + n, Max), and leave the other slots alone |
| PrinterJob.SlotState.RecordDelivery | services/printer/print.go:48-57 | one delivery more, and a snapshot of the result |
| PrinterJob.DocumentOpens | services/printer/print.go:152-183 | a job opens to m exactly if its key text decodes, unwraps to 32 octets, and these open what follows the blob's first 12 octets with them as nonce |
| PrinterJob.Unit.ProcessJob | services/printer/print.go:139-207 | no error exactly if the document is fetched and opens and neither writing nor printing nor removing fails; every buffer obtained is zero and nothing left on the tmpfs on every exit, unless removing failed; it prints exactly what opens |
| PrinterJob.Unit.HandleDispatch | services/printer/print.go:113-130 | the frames are printing, delivered and state exactly under that condition, and printing and failed otherwise; delivered goes out with everything unlinked and wiped |
| Bytes.ZeroBytes | services/printer/crypto.go:66-70 | the slice is all zero |
| Pbkdf2.Pbkdf2Key | services/printer/crypto.go:248-280 | the key of section 5.2 of RFC 8018 for every password, salt and count, below 2^32 blocks, although u and t are reused |
| Pbkdf2.BlockIndexIsInt | services/printer/crypto.go:257-261 | the four truncated bytes are the RFC's INT(i) if and only if i < 2^32 |
| Pbkdf2.IteratesOfTheRfc | services/printer/crypto.go:263-277 | U_1 and T_1 are PRF(P, S, INT(i)), each further iterate is PRF(P, U_j), and T their exclusive or, octet by octet |
| Pbkdf2.OctetsOfTheKey | services/printer/crypto.go:257-280 | octet k of a derived key is octet k mod hLen of block k / hLen + 1, whose index is four octets, most significant first |
| Pbkdf2.DerivedKeyIsUnique | services/printer/crypto.go:241-247 | the RFC's definition determines the key |
| Pbes2.PadFillsBlocks | services/printer/crypto.go:282-299 | padding keeps the message and fills whole blocks, with at least one octet and at most a block |
| Pbes2.LastOctets | services/printer/crypto.go:282-299 | every padding octet is the number of padding octets |
| Pbes2.Pkcs7Unpad | services/printer/crypto.go:284-299 | returns m exactly on the padding of m by section 6.3 of RFC 5652, an error exactly on what is no padded message, for block sizes 1 to 255 |
| Pbes2.PadIsInjective | services/printer/crypto.go:282-299 | padded messages unpad to one message only |
| Pbes2.CbcChains | services/printer/crypto.go:230-231 | block i of a CBC encryption is the cipher of message block i after an exclusive or with ciphertext block i - 1, or the initialisation vector |
| Pbes2.CbcDecryptsEncrypted | services/printer/crypto.go:230-231 | CBC decryption undoes CBC encryption over any block permutation |
| Pbes2.CbcEncryptsDecrypted | services/printer/crypto.go:230-231 | and the other way round |
| Pbes2.DecryptWith | services/printer/crypto.go:221-239 | returns m exactly on the CBC encryption of padded m, and wipes the plaintext on an error |
| Pbes2.DecryptPbes2 | services/printer/crypto.go:174-239 | returns m exactly on what section 6.2.1 of RFC 8018 makes of m under this password, and wipes the derived key on every exit |
| Pbes2.EncryptionMeans | services/printer/crypto.go:174-239 | for the key a password derives, the encryption is CBC of the padded message under it, if the cipher takes the key and the initialisation vector is one block |
| Pbes2.EncryptionIsInjective | services/printer/crypto.go:174-239 | data and password determine the message |
| Backoff.CeilingIsIdealExactlyBelowOverflow | services/printer/wsclient.go:44-57 | with wrapping arithmetic the jitter ceiling is min(2^(attempt-1) s, max) for every attempt if and only if max <= 327680 * 2^43 ns |
| Backoff.CeilingIsMonotone | services/printer/wsclient.go:44-57 | and then it never falls |
| Backoff.IdealMeans | services/printer/wsclient.go:40-44 | the i-th ceiling is 2^i seconds, or the maximum if that is less |
| Backoff.BackoffWithJitter | services/printer/wsclient.go:44-57 | the delay is in [0, max), or zero without a positive max, whatever overflows; below the bound it is drawn below the exact ideal |
| Backoff.RunClient | services/printer/wsclient.go:18-38 | every wait is below the maximum, and the i-th is drawn below min(2^(i-1) s, max) up to the same bound |
| Base64.DecodeEncode | services/cloud/handlers/jobs.go:123-127 | decoding what was encoded gives back the octets, for every octet string |
| Base64.LetterIsStandard | services/portal/lib/encrypt.ts:89-97 | the alphabet is A to Z, a to z, 0 to 9, + and /, in this order |
| Base64.RfcVectors | services/portal/lib/encrypt.ts:89-97 | vectors of section 10 of RFC 4648, padding included |
| Base64.OnlyBase64IsDecoded | services/cloud/handlers/jobs.go:123-127 | what is accepted, line ends aside, is whole groups of four letters, the last with at most two "=" |
| Base64.NewlinesAreSkipped | services/printer/print.go:152-155 | line ends are skipped wherever they stand |
| Base64.SameNumber | services/portal/lib/encrypt.ts:89-97 | four sextets and three octets are the same number, as section 4 of RFC 4648 has it |
| Base64.ReencodingKeepsTheOctets | services/cloud/dispatch/route.go:270-278 | whatever key text is accepted, decoding and encoding it again keeps its octets |
| Base64.BufferToBase64 | services/portal/lib/encrypt.ts:89-97 | the chunked encoder equals the one-shot encoding for every length |
| DocumentPath.EncryptDocument | services/portal/lib/encrypt.ts:39-84 | the blob is the nonce and then the sealed document, the key is wrapped |
| DocumentPath.KeySurvivesTheCloud | services/cloud/handlers/jobs.go:123-187 | the printer decodes the bytes the browser wrapped, through the database, the stream and the frame, and every other field of the reference is the request's |
| DocumentPath.FixedSizeWrapCanMatch | services/portal/lib/encrypt.ts:39-84 | a wrap of fixed-size keys into octets of one length, as RSA-OAEP is, can meet the laws the round trip asks for |
| DocumentPath.DocumentRoundTrip | services/printer/print.go:139-183 | for every document of a length GCM takes, every 32-octet key and 12-octet nonce, the printer opens exactly the original bytes |
| DocumentPath.SendAndPrint | services/printer/print.go:113-207 | end to end: delivered is reported exactly if neither writing nor printing nor removing fails on the unit, and the document is printed unless writing or printing fails |

## Left out

- One printer and one live socket for a mailbox at a time; two sockets subscribed at once are not modelled.
- A Publish or Commit that returns an error has had no effect. RequeueJob, XADD, XACK, XREADGROUP, XAUTOCLAIM and UpdateJobStatus may fail with or without effect.
- Commands whose effect arrives after their caller has given up and moved on.
- Row locks of single-statement updates: they are momentary, and an update simply waits for a claim transaction to end.
- Liveness: jobs can stay dispatching after a crash between claim and publish or an ignored revert error, and a dead socket still counts as a receiver.
- Redis failover, dropped pub/sub messages on a slow client, and EnsureGroup, which starts the group at the end of an empty stream.
- The job_dispatched and blob_deleted audit rows, and blobs without deletion configured.
- DispatchCode.Drain: which entries a reply holds is XREADGROUP's business in Protocol; DrainLoops.Loop.Drain names them for a loop that is alone.
- DispatchCode.AttemptDispatch: the printer's state is an arbitrary answer here; PrinterLink says what it depends on.
- DrainLoops.Loop.Reclaim: XAUTOCLAIM may end its scan anywhere, and what it then leaves to the next sweep after an empty reply is not bounded.
- LoopTiming.Loop.Run: the number of turns is a parameter in place of an endless loop, cancellation ends it early, and the sweep interval is the default, which only the repository's own tests change.
- PrinterLink.Accept: status frames are HubCode's, the pump of dispatch payloads is Protocol's link, and close handshakes and the liveness mirror are not part of it.
- HubCode.OnStatus: one job's frames at a time, as Protocol has one link for each job; the frame with an unparseable job id is not part of it.
- PrinterJob.Unit.ProcessJob: the file's absence is claimed without an error only, since WriteFile may leave a part and Remove may fail; jobs run one at a time.
- Pbkdf2.Pbkdf2Key: from 2^32 blocks on, where the RFC stops with an error and the code's block index wraps, only the length is stated.
- Pbes2.DecryptPbes2: ASN.1, PEM, object identifiers and the AES key schedule are parameters.
- RSA-OAEP, AES-GCM, HMAC and the AES permutation are arbitrary functions with their inverse laws: for the wrap on keys of 32 octets, for the seal on nonces of 12 octets and up to 2^36 - 32 octets, the most that section 5.2.1.1 of NIST SP 800-38D allows.
- TimedRuns: that a live loop's gaps hold under 90 seconds of latency besides its handles and its select is an assumption, as in LoopTiming; what XINFO and XPENDING replied is trusted until it is acted on.
- HTTP routing, authorization, tokens, presigned URLs, JSON, TLS, the portal's pages, the admin service and the deployment files: thin, or library code.
