/** The two status fields of a download, and who reads and writes them. */
module DownloadStatus {

  type Tid = nat

  /** dlstatus */
  datatype Status = NotStarted | Queued | InProgress | CancelInProgress | CancelDone | Downloaded | Failed

  /** Whether Complete has not been called, is calling the callbacks, or has called them. */
  datatype ReapStatus = OK | CallInProgress | CallDone
}
