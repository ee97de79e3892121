/** A document's way from the browser to the paper: portal/lib/encrypt.ts, POST /jobs (cloud/handlers/jobs.go),
    the job reference and the stream (cloud/dispatch/route.go), the dispatch frame, and the printer. */
module DocumentPath {
  import opened Wrappers
  import opened Bytes
  import opened Base64
  import opened JobRefs
  import opened PrinterJob

  /** The browser's primitives: AES-GCM sealing with (key, nonce, message), and RSA-OAEP wrapping under the
      printer's public key. */
  datatype Sealer = Sealer(seal: (Octets, Octets, Octets) -> Octets, wrap: Octets -> Octets)

  /** The longest message AES-GCM encrypts, in octets: 2^36 - 32 (section 5.2.1.1 of NIST SP 800-38D). */
  const MAX_MESSAGE: nat := 0xF_FFFF_FFE0

  /** The two ends fit: GCM opens what was sealed under the same content key and nonce, OAEP unwraps wrapped
      content keys. Nothing is asked of keys, nonces and messages of other sizes. */
  ghost predicate Matching(s: Sealer, o: Opener) {
    && (forall key: Octets, iv: Octets, m: Octets ::
          |key| == KEY_SIZE && |iv| == NONCE_SIZE && |m| <= MAX_MESSAGE ==>
            o.open(key, iv, s.seal(key, iv, m)) == Some(m))
    && (forall key: Octets :: |key| == KEY_SIZE ==> o.unwrap(s.wrap(key)) == Some(key))
  }

  /** GCM appends a tag of 16 octets. */
  const TAG_SIZE: nat := 16

  /** A wrap whose results all have one length, as RSA-OAEP's have, and a seal as much longer than its message as
      GCM's is, can be a matching pair. */
  lemma FixedSizeWrapCanMatch(size: nat) returns (s: Sealer, o: Opener)
    requires size >= KEY_SIZE
    ensures Matching(s, o) && forall key: Octets :: |s.wrap(key)| == size
    ensures forall key: Octets, iv: Octets, m: Octets :: |s.seal(key, iv, m)| == |m| + TAG_SIZE
  {
    s := Sealer((key, iv, m) => m + Fill([], TAG_SIZE), key => Fill(key, size));
    o := Opener(w => if |w| >= KEY_SIZE then Some(w[..KEY_SIZE]) else None,
                (key, iv, c) => if |c| >= TAG_SIZE then Some(c[..|c| - TAG_SIZE]) else None);
    assert forall m: Octets :: (m + Fill([], TAG_SIZE))[..|m|] == m;
  }

  function Fill(key: Octets, size: nat): (w: Octets)
    ensures |w| == size && (|key| <= size ==> key <= w)
  {
    if |key| <= size then key + seq(size - |key|, i => 0) else key[..size]
  }

  /** encryptDocument, for the content key and nonce the browser has drawn: the nonce goes first, then the
      ciphertext with its tag. */
  method EncryptDocument(s: Sealer, key: Octets, iv: Octets, pdf: Octets)
    returns (blob: array<byte>, encryptedKey: Octets)
    requires |iv| == NONCE_SIZE
    ensures fresh(blob) && blob[..] == iv + s.seal(key, iv, pdf)
    ensures encryptedKey == s.wrap(key)
  {
    var encrypted := s.seal(key, iv, pdf);
    blob := new byte[12 + |encrypted|];
    Set(blob, iv, 0);
    Set(blob, encrypted, 12);
    assert blob[..] == blob[..12] + blob[12..];
    encryptedKey := s.wrap(key);
  }

  /** Uint8Array.prototype.set */
  method Set(a: array<byte>, x: Octets, at: nat)
    requires at + |x| <= a.Length
    modifies a
    ensures a[at..at + |x|] == x && a[..at] == old(a[..at]) && a[at + |x|..] == old(a[at + |x|..])
  {
    for i := 0 to |x|
      invariant a[at..at + i] == x[..i] && a[..at] == old(a[..at]) && a[at + |x|..] == old(a[at + |x|..])
    {
      a[at + i] := x[i];
    }
  }

  /** FromJob, on the key bytes CreateJob decoded and stored. */
  function FromJob(jobId: string, mailboxId: string, slotId: string, encryptedKey: Octets, blobRef: string): JobRef {
    JobRef(jobId, mailboxId, slotId, Encode(encryptedKey), blobRef)
  }

  /** CreateJob: the key of the request must be base64, and is handed on decoded and encoded again. */
  function CreateJob(jobId: string, mailboxId: string, slotId: string, keyText: string, blobRef: string)
    : Option<JobRef>
  {
    var key := Decode(keyText);
    if key.None? then None else Some(FromJob(jobId, mailboxId, slotId, key.value, blobRef))
  }

  /** The frame attemptDispatch publishes for a job reference; the printer fetches the blob by its own URL. */
  function FrameOf(f: JobRef): Dispatch {
    Dispatch(f.jobId, f.encryptedKey)
  }

  /** Whatever key text the cloud accepts, dispatched at once or from the stream the printer decodes the same
      bytes from it. */
  lemma KeySurvivesTheCloud(jobId: string, mailboxId: string, slotId: string, keyText: string, blobRef: string)
    requires Decode(keyText).Some?
    ensures var f := CreateJob(jobId, mailboxId, slotId, keyText, blobRef).value;
      && f == JobRef(jobId, mailboxId, slotId, f.encryptedKey, blobRef) && FrameOf(f).jobId == jobId
      && Decode(FrameOf(f).encryptedKey) == Decode(keyText)
      && JobRefFromValues(ToXAddValues(f)) == Success(f)
  {
    ReencodingKeepsTheOctets(keyText);
    JobRefRoundTrip(FromJob(jobId, mailboxId, slotId, Decode(keyText).value, blobRef));
  }

  /** For every document, key, nonce and job: what the printer makes of the frame and the blob is the
      document, byte for byte. */
  lemma DocumentRoundTrip(s: Sealer, o: Opener, key: Octets, iv: Octets, pdf: Octets, jobId: string,
                          mailboxId: string, slotId: string, blobRef: string)
    requires Matching(s, o) && |key| == 32 && |iv| == 12 && |pdf| <= MAX_MESSAGE
    ensures var keyText := Encode(s.wrap(key));
      && CreateJob(jobId, mailboxId, slotId, keyText, blobRef).Some?
      && Document(o, iv + s.seal(key, iv, pdf),
                  FrameOf(CreateJob(jobId, mailboxId, slotId, keyText, blobRef).value).encryptedKey) == Some(pdf)
  {
    DecodeEncode(s.wrap(key));
    KeySurvivesTheCloud(jobId, mailboxId, slotId, Encode(s.wrap(key)), blobRef);
    var blob := iv + s.seal(key, iv, pdf);
    assert blob[..NONCE_SIZE] == iv && blob[NONCE_SIZE..] == s.seal(key, iv, pdf);
  }

  /** The same as code, end to end. queued says whether the job went through the stream; object storage hands
      back what was uploaded. The printer reports delivered exactly if nothing fails on the unit, and it prints the
      document unless the writing or the printing failed. */
  method SendAndPrint(s: Sealer, key: Octets, iv: Octets, pdf: Octets, ids: JobRef, queued: bool, faults: Faults,
                      unit: Unit, state: SlotState)
    requires Matching(s, unit.opener) && |key| == 32 && |iv| == 12 && |pdf| <= MAX_MESSAGE
    requires unit.Wiped()
    modifies unit`files, unit`printed, unit`buffers, unit`sent, unit`clean, state`slots
    ensures unit.Wiped()
    ensures if !faults.writing && !faults.printing && !faults.removing then
              unit.sent == old(unit.sent) + [StatusFrame(ids.jobId, "printing", ""),
                                             StatusFrame(ids.jobId, "delivered", ""),
                                             StateFrame(state.status, state.slots)]
            else
              unit.sent == old(unit.sent) + [StatusFrame(ids.jobId, "printing", ""),
                                             StatusFrame(ids.jobId, "failed", "processing failed")]
    ensures unit.printed == old(unit.printed) + if faults.writing || faults.printing then [] else [pdf]
  {
    var blob, wrapped := EncryptDocument(s, key, iv, pdf);
    var keyText := BufferToBase64(wrapped);
    DocumentRoundTrip(s, unit.opener, key, iv, pdf, ids.jobId, ids.mailboxId, ids.slotId, ids.blobRef);
    KeySurvivesTheCloud(ids.jobId, ids.mailboxId, ids.slotId, keyText, ids.blobRef);
    var ref := CreateJob(ids.jobId, ids.mailboxId, ids.slotId, keyText, ids.blobRef).value;
    if queued {
      ref := JobRefFromValues(ToXAddValues(ref)).value;
    }
    unit.HandleDispatch(FrameOf(ref), Some(blob[..]), false, faults, state);
  }
}
