/** The stream entry a blocked job is queued as, and its codec (dispatch/route.go). */
module JobRefs {
  import opened Wrappers

  /** What XADD stores for a blocked job: enough to retry the dispatch without going back to Postgres. */
  datatype JobRef = JobRef(
    jobId: string,
    mailboxId: string,
    slotId: string,
    encryptedKey: string,
    blobRef: string)

  /** A stream field as the client library hands it back: usually a string, but typed `any`. */
  datatype Value = Text(text: string) | NotText

  type Values = map<string, Value>

  function ToXAddValues(f: JobRef): Values {
    map[
      "job_id" := Text(f.jobId),
      "mailbox_id" := Text(f.mailboxId),
      "slot_id" := Text(f.slotId),
      "encrypted_key" := Text(f.encryptedKey),
      "blob_ref" := Text(f.blobRef)
    ]
  }

  function GetText(values: Values, k: string): Result<string> {
    if k !in values then
      Failure("dispatch: stream message missing field " + k)
    else if values[k].NotText? then
      Failure("dispatch: stream field " + k + " is not a string")
    else
      Success(values[k].text)
  }

  /** Fields are looked up in the source's order, so the first bad one names the error. */
  function JobRefFromValues(values: Values): Result<JobRef> {
    var jobId := GetText(values, "job_id");
    if jobId.Failure? then Failure(jobId.error) else
    var mailboxId := GetText(values, "mailbox_id");
    if mailboxId.Failure? then Failure(mailboxId.error) else
    var slotId := GetText(values, "slot_id");
    if slotId.Failure? then Failure(slotId.error) else
    var encryptedKey := GetText(values, "encrypted_key");
    if encryptedKey.Failure? then Failure(encryptedKey.error) else
    var blobRef := GetText(values, "blob_ref");
    if blobRef.Failure? then Failure(blobRef.error) else
    Success(JobRef(jobId.value, mailboxId.value, slotId.value, encryptedKey.value, blobRef.value))
  }

  /** A job reference survives the stream: what the dispatcher decodes is what TryDispatch queued,
      each field under its own name. */
  lemma JobRefRoundTrip(f: JobRef)
    ensures JobRefFromValues(ToXAddValues(f)) == Success(f)
    ensures var v := ToXAddValues(f);
      && v.Keys == {"job_id", "mailbox_id", "slot_id", "encrypted_key", "blob_ref"}
      && v["job_id"] == Text(f.jobId) && v["mailbox_id"] == Text(f.mailboxId) && v["slot_id"] == Text(f.slotId)
      && v["encrypted_key"] == Text(f.encryptedKey) && v["blob_ref"] == Text(f.blobRef)
  {
    var v := ToXAddValues(f);
    var k0, k1, k2, k3, k4 := "job_id", "mailbox_id", "slot_id", "encrypted_key", "blob_ref";
    assert |k0| == 6 && |k1| == 10 && |k2| == 7 && |k3| == 13 && |k4| == 8;
    assert v[k0] == Text(f.jobId) && v[k1] == Text(f.mailboxId) && v[k2] == Text(f.slotId)
        && v[k3] == Text(f.encryptedKey) && v[k4] == Text(f.blobRef);
  }

  /** A message that lacks any of the five fields, or holds something else than a string there, is refused. */
  lemma IncompleteMessagesAreRefused(values: Values, k: string)
    requires k == "job_id" || k == "mailbox_id" || k == "slot_id" || k == "encrypted_key" || k == "blob_ref"
    requires k !in values || values[k].NotText?
    ensures JobRefFromValues(values).Failure?
  {
  }
}
