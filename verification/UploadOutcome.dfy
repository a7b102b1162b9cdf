/** app/services/upload_outcome.py: where a file lands and what its audit row says.
    It only decides; UploadService.ApplyOutcome carries a decision out. */
module UploadOutcome {

  datatype Destination = ToUploaded | ToFailed

  /** The audit row's status vocabulary. */
  datatype RowStatus = Pending | Uploaded | Failed

  datatype Kind = Confirmed | Unconfirmed | IdempotentSkip | Rejected | CallFailed | GateParked

  datatype FileOutcome = FileOutcome(
    kind: Kind,
    destination: Destination,
    status: RowStatus,
    setsValidationError: bool,
    countsAsRetry: bool,
    stampUploadedAt: bool)

  function ConfirmedOutcome(): FileOutcome {
    FileOutcome(Confirmed, ToUploaded, Uploaded, false, false, true)
  }

  function SkipOutcome(): FileOutcome {
    FileOutcome(IdempotentSkip, ToUploaded, Uploaded, false, false, false)
  }

  function ParkedOutcome(): FileOutcome {
    FileOutcome(GateParked, ToUploaded, Uploaded, false, false, true)
  }

  function RejectedOutcome(): FileOutcome {
    FileOutcome(Rejected, ToFailed, Failed, true, true, false)
  }

  function FailedOutcome(): FileOutcome {
    FileOutcome(CallFailed, ToFailed, Failed, false, true, false)
  }

  /** Step 9's reading is carried as text only; it never changes the outcome. */
  function FromPollResult(pollMessage: string): FileOutcome {
    ConfirmedOutcome()
  }

  /** The outcomes the upload lane hands out. */
  predicate Produced(o: FileOutcome) {
    o in {ConfirmedOutcome(), SkipOutcome(), ParkedOutcome(), RejectedOutcome(), FailedOutcome()}
  }

  /** The table is consistent: what lands in uploaded/ is recorded as uploaded and never
      counts as a retry, only a file the service itself registered is stamped, and only a
      local rejection sets a validation error. */
  lemma TableAgrees(o: FileOutcome)
    requires Produced(o)
    ensures o.destination == ToUploaded <==> o.status == Uploaded
    ensures o.destination == ToFailed <==> o.status == Failed
    ensures o.countsAsRetry <==> o.destination == ToFailed
    ensures o.stampUploadedAt <==> o.kind in {Confirmed, GateParked}
    ensures o.setsValidationError <==> o.kind == Rejected
  {
  }
}
