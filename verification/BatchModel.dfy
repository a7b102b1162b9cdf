/** The batch-level status vocabulary every part of the service shares. */
module BatchModel {
  datatype BatchStatus = Queued | Uploading | Incomplete | Confirmed | Unconfirmed | Failed | Rejected
}
