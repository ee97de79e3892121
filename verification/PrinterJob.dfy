/** One dispatched job on the printer (printer/print.go, and DecryptDocument of printer/crypto.go): fetch,
    unwrap, decrypt, print, unlink, wipe, and only then report. */
module PrinterJob {
  import opened Wrappers
  import opened Bytes
  import opened Base64
  import opened PrinterSlots

  datatype Error =
    | FetchFailed | BadKeyEncoding | UnwrapFailed | DecryptFailed | WriteFailed | PrintFailed | RemoveFailed

  /** What goes wrong on the unit while it handles the job. */
  datatype Faults = Faults(writing: bool, printing: bool, removing: bool)

  // ----- what the printer can open -----

  /** The printer's private key operation, and AES-GCM opening with (key, nonce, ciphertext and tag). */
  datatype Opener = Opener(unwrap: Octets -> Option<Octets>, open: (Octets, Octets, Octets) -> Option<Octets>)

  const KEY_SIZE: nat := 32
  const NONCE_SIZE: nat := 12

  /** DecryptDocument: [12-byte IV || ciphertext and tag] under a 32-byte key. */
  function DecryptDocument(o: Opener, blob: Octets, key: Octets): Option<Octets> {
    if |key| != KEY_SIZE || |blob| < NONCE_SIZE then None
    else o.open(key, blob[..NONCE_SIZE], blob[NONCE_SIZE..])
  }

  /** What a dispatched job prints: the blob, opened with the key its frame carries in base64. */
  function Document(o: Opener, blob: Octets, encryptedKey: string): Option<Octets> {
    var wrapped := Decode(encryptedKey);
    if wrapped.None? then None else
    var key := o.unwrap(wrapped.value);
    if key.None? then None else DecryptDocument(o, blob, key.value)
  }

  /** A job opens to m exactly if its key text is base64, unwraps to 32 octets, and these open what follows the
      blob's first 12 octets, which are the nonce. */
  lemma DocumentOpens(o: Opener, blob: Octets, encryptedKey: string, m: Octets)
    ensures Document(o, blob, encryptedKey) == Some(m) <==>
              exists w: Octets, key: Octets {:trigger Some(w), Some(key)} ::
                Decode(encryptedKey) == Some(w) && o.unwrap(w) == Some(key) && |key| == 32
                && |blob| >= 12 && o.open(key, blob[..12], blob[12..]) == Some(m)
  {
    if Document(o, blob, encryptedKey) == Some(m) {
      var w := Decode(encryptedKey).value;
      assert o.unwrap(w) == Some(o.unwrap(w).value) && Decode(encryptedKey) == Some(w);
    }
  }

  // ----- slot occupancy -----

  function SlotIn(slots: map<string, SlotInfo>, id: string): SlotInfo {
    if id in slots then slots[id] else SlotInfo(0, 0)
  }

  function Filled(info: SlotInfo): SlotInfo {
    if info.current < info.max then info.(current := info.current + 1) else info
  }

  /** The slots after n deliveries to one of them. */
  function AfterDeliveries(slots: map<string, SlotInfo>, id: string, n: nat): map<string, SlotInfo> {
    if n == 0 then slots
    else
      var before := AfterDeliveries(slots, id, n - 1);
      before[id := Filled(SlotIn(before, id))]
  }

  /** n deliveries raise a slot's occupancy by n, or as far as it has room; the other slots stay as they were. */
  lemma {:induction false} OccupancyCounts(slots: map<string, SlotInfo>, id: string, n: nat)
    ensures var before, after := SlotIn(slots, id), AfterDeliveries(slots, id, n);
      && SlotIn(after, id).max == before.max
      && SlotIn(after, id).current == (if before.current >= before.max then before.current
                                       else if before.current + n < before.max then before.current + n
                                       else before.max)
      && forall k: string :: k != id ==> SlotIn(after, k) == SlotIn(slots, k) && (k in after <==> k in slots)
  {
    if n > 0 {
      OccupancyCounts(slots, id, n - 1);
    }
  }

  class SlotState {
    var status: string
    var slotId: string
    var slots: map<string, SlotInfo>

    constructor (slotId: string)
      ensures status == "idle" && this.slotId == slotId && slots == map[slotId := SlotInfo(0, 5)]
    {
      status, this.slotId, slots := "idle", slotId, map[slotId := SlotInfo(0, 5)];
    }

    /** recordDelivery, under the mutex: one more letter unless the slot is full, and a snapshot. */
    method RecordDelivery(id: string) returns (snapshotStatus: string, snapshot: map<string, SlotInfo>)
      modifies this`slots
      ensures slots == AfterDeliveries(old(slots), id, 1)
      ensures slots == old(slots)[id := var info := if id in old(slots) then old(slots)[id] else SlotInfo(0, 0);
                                        if info.current < info.max then SlotInfo(info.current + 1, info.max) else info]
      ensures snapshotStatus == status && snapshot == slots
    {
      var info := SlotIn(slots, id);
      if info.current < info.max {
        info := info.(current := info.current + 1);
      }
      assert AfterDeliveries(slots, id, 0) == slots;
      slots := slots[id := info];
      return status, slots;
    }
  }

  // ----- the pipeline -----

  datatype Frame =
    | StatusFrame(jobId: string, status: string, error: string)
    | StateFrame(status: string, occupancy: map<string, SlotInfo>)

  /** A dispatch frame as it came over the link. */
  datatype Dispatch = Dispatch(jobId: string, encryptedKey: string)

  function PathOf(jobId: string): string {
    "/dev/shm/automail-" + jobId + ".pdf"
  }

  /** The unit: its tmpfs, its print queue, its link, and every sensitive buffer the job was handed. */
  class Unit {
    const opener: Opener
    var files: map<string, Octets>
    var printed: seq<Octets>              // the files lp has read
    var sent: seq<Frame>
    ghost var clean: seq<bool>            // for each frame sent, whether the job had left no plaintext by then
    ghost var buffers: set<array<byte>>

    constructor (opener: Opener)
      ensures this.opener == opener && files == map[] && printed == [] && sent == [] && clean == [] && buffers == {}
    {
      this.opener, files, printed, sent, clean, buffers := opener, map[], [], [], [], {};
    }

    ghost predicate Wiped()
      reads this, buffers
    {
      forall b: array<byte> :: b in buffers ==> AllZero(b[..])
    }

    /** A buffer with sensitive contents comes into being. */
    method Obtain(contents: Octets) returns (b: array<byte>)
      modifies this`buffers
      ensures fresh(b) && b[..] == contents && buffers == old(buffers) + {b}
    {
      b := new byte[|contents|](i requires 0 <= i < |contents| => contents[i]);
      buffers := buffers + {b};
    }

    method Send(f: Frame, ghost path: string)
      modifies this`sent, this`clean
      ensures sent == old(sent) + [f] && clean == old(clean) + [old(Wiped() && path !in files)]
    {
      clean := clean + [Wiped() && path !in files];
      sent := sent + [f];
    }

    /** Steps 5 to 7 of processJob. */
    method PrintAndUnlink(path: string, plain: array<byte>, dev: bool, faults: Faults) returns (err: Option<Error>)
      modifies this`files, this`printed
      ensures err == Some(WriteFailed) <==> faults.writing
      ensures err == Some(PrintFailed) <==> !faults.writing && !dev && faults.printing
      ensures err == Some(RemoveFailed) <==> !faults.writing && (dev || !faults.printing) && faults.removing
      ensures err == None <==> !faults.writing && (dev || !faults.printing) && !faults.removing
      ensures faults.writing ==> files == old(files)
      ensures !faults.writing ==>
                files == if faults.removing then old(files)[path := plain[..]] else old(files) - {path}
      ensures printed == old(printed) + if dev || faults.writing || faults.printing then [] else [plain[..]]
    {
      if faults.writing {
        return Some(WriteFailed);
      }
      files := files[path := plain[..]];
      if !dev {
        if faults.printing {
          if !faults.removing {
            files := files - {path};
          }
          return Some(PrintFailed);
        }
        printed := printed + [files[path]];
      }
      if faults.removing {
        return Some(RemoveFailed);
      }
      files := files - {path};
      return None;
    }

    /** Steps 4 to 7, then the deferred wipe of the plaintext. */
    method DecryptAndPrint(path: string, blob: array<byte>, key: array<byte>, dev: bool, faults: Faults)
      returns (err: Option<Error>)
      modifies this`files, this`printed, this`buffers
      ensures old(buffers) <= buffers && fresh(buffers - old(buffers))
      ensures forall b: array<byte> :: b in buffers - old(buffers) ==> AllZero(b[..])
      ensures files - {path} == old(files) - {path}
      ensures var pdf := DecryptDocument(opener, blob[..], key[..]);
        && (err == Some(DecryptFailed) <==> pdf.None?)
        && (err == None <==> pdf.Some? && !faults.writing && (dev || !faults.printing) && !faults.removing)
        && printed == old(printed)
                      + if pdf.Some? && !dev && !faults.writing && !faults.printing then [pdf.value] else []
      ensures err.Some? ==> err.value in {DecryptFailed, WriteFailed, PrintFailed, RemoveFailed}
      ensures err == None ==> path !in files
      ensures path !in old(files) && !faults.removing ==> path !in files
    {
      var pdf := DecryptDocument(opener, blob[..], key[..]);
      if pdf.None? {
        return Some(DecryptFailed);
      }
      var plain := Obtain(pdf.value);
      err := PrintAndUnlink(path, plain, dev, faults);
      ZeroBytes(plain);
    }

    /** Steps 2 to 7, then the deferred wipes of the two keys. */
    method UnwrapAndDecrypt(d: Dispatch, blob: array<byte>, dev: bool, faults: Faults) returns (err: Option<Error>)
      modifies this`files, this`printed, this`buffers
      ensures old(buffers) <= buffers && fresh(buffers - old(buffers))
      ensures forall b: array<byte> :: b in buffers - old(buffers) ==> AllZero(b[..])
      ensures files - {PathOf(d.jobId)} == old(files) - {PathOf(d.jobId)}
      ensures var pdf := Document(opener, blob[..], d.encryptedKey);
        && (err.Some? && err.value in {BadKeyEncoding, UnwrapFailed, DecryptFailed} <==> pdf.None?)
        && (err == None <==> pdf.Some? && !faults.writing && (dev || !faults.printing) && !faults.removing)
        && printed == old(printed)
                      + if pdf.Some? && !dev && !faults.writing && !faults.printing then [pdf.value] else []
      ensures (err == Some(BadKeyEncoding) <==> Decode(d.encryptedKey).None?) && err != Some(FetchFailed)
      ensures err == None ==> PathOf(d.jobId) !in files
      ensures PathOf(d.jobId) !in old(files) && !faults.removing ==> PathOf(d.jobId) !in files
    {
      var wrapped := Decode(d.encryptedKey);
      if wrapped.None? {
        return Some(BadKeyEncoding);
      }
      var encryptedKey := Obtain(wrapped.value);
      var raw := opener.unwrap(encryptedKey[..]);
      if raw.None? {
        ZeroBytes(encryptedKey);
        return Some(UnwrapFailed);
      }
      var rawAesKey := Obtain(raw.value);
      err := DecryptAndPrint(PathOf(d.jobId), blob, rawAesKey, dev, faults);
      ZeroBytes(rawAesKey);
      ZeroBytes(encryptedKey);
    }

    /** processJob. On every way out each buffer it obtained is all zero, and nothing is left on the tmpfs unless
        removing it failed. It succeeds exactly if the blob can be fetched and opened and nothing fails on the
        unit, and it prints exactly what it opens. */
    method ProcessJob(d: Dispatch, fetched: Option<Octets>, dev: bool, faults: Faults) returns (err: Option<Error>)
      requires Wiped()
      modifies this`files, this`printed, this`buffers
      ensures Wiped() && fresh(buffers - old(buffers))
      ensures forall b: array<byte>, i :: b in buffers && 0 <= i < b.Length ==> b[i] == 0
      ensures files - {PathOf(d.jobId)} == old(files) - {PathOf(d.jobId)}
      ensures err == Some(FetchFailed) <==> fetched.None?
      ensures err == None <==>
                && fetched.Some? && Document(opener, fetched.value, d.encryptedKey).Some?
                && !faults.writing && (dev || !faults.printing) && !faults.removing
      ensures err == None ==> PathOf(d.jobId) !in files
      ensures PathOf(d.jobId) !in old(files) && !faults.removing ==> PathOf(d.jobId) !in files
      ensures printed == old(printed)
                         + if fetched.Some? && Document(opener, fetched.value, d.encryptedKey).Some?
                              && !dev && !faults.writing && !faults.printing
                           then [Document(opener, fetched.value, d.encryptedKey).value] else []
    {
      if fetched.None? {
        return Some(FetchFailed);
      }
      var blob := Obtain(fetched.value);
      err := UnwrapAndDecrypt(d, blob, dev, faults);
      ZeroBytes(blob);
    }

    /** handleDispatch. It reports printing, and then delivered and the new occupancy exactly if the document opens
        and nothing fails, or else failed, always in the same words; when delivered goes out nothing of the
        document is left. */
    method HandleDispatch(d: Dispatch, fetched: Option<Octets>, dev: bool, faults: Faults, state: SlotState)
      requires Wiped()
      modifies this`files, this`printed, this`buffers, this`sent, this`clean, state`slots
      ensures Wiped() && files - {"/dev/shm/automail-" + d.jobId + ".pdf"}
                         == old(files) - {"/dev/shm/automail-" + d.jobId + ".pdf"}
      ensures |clean| - |old(clean)| == |sent| - |old(sent)|
      ensures if fetched.Some? && Document(opener, fetched.value, d.encryptedKey).Some?
                 && !faults.writing && (dev || !faults.printing) && !faults.removing
              then
                && sent == old(sent) + [StatusFrame(d.jobId, "printing", ""), StatusFrame(d.jobId, "delivered", ""),
                                        StateFrame(state.status, state.slots)]
                && state.slots == AfterDeliveries(old(state.slots), state.slotId, 1)
                && clean[|old(clean)| + 1]
                && PathOf(d.jobId) !in files
              else
                && sent == old(sent) + [StatusFrame(d.jobId, "printing", ""),
                                        StatusFrame(d.jobId, "failed", "processing failed")]
                && state.slots == old(state.slots)
      ensures printed == old(printed)
                         + if fetched.Some? && Document(opener, fetched.value, d.encryptedKey).Some?
                              && !dev && !faults.writing && !faults.printing
                           then [Document(opener, fetched.value, d.encryptedKey).value] else []
    {
      assert PathOf(d.jobId) == "/dev/shm/automail-" + d.jobId + ".pdf";
      Send(StatusFrame(d.jobId, "printing", ""), PathOf(d.jobId));
      var err := ProcessJob(d, fetched, dev, faults);
      if err.Some? {
        Send(StatusFrame(d.jobId, "failed", "processing failed"), PathOf(d.jobId));
        return;
      }
      Send(StatusFrame(d.jobId, "delivered", ""), PathOf(d.jobId));
      var status, slots := state.RecordDelivery(state.slotId);
      Send(StateFrame(status, slots), PathOf(d.jobId));
    }
  }
}
