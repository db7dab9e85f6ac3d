/** The shared job record and its five statuses. */
module Domain {
  import opened Text

  datatype Option<+T> = None | Some(value: T)

  datatype Status = Processing | AwaitingPayment | Ready | Failed | Cancelled

  type Time = int

  /** The fields of the job record that any actor of the pipeline reads or writes. */
  datatype Job = Job(
    status: Status,
    file1Key: string,
    file2Key: string,
    resultKey: string,
    resultPath: string,
    amountYuan: real,
    codeURL: string,
    paid: bool,
    paidAt: Option<Time>,
    cancelledAt: Option<Time>,
    error: string)

  /** The record the upload handler creates. */
  function NewJob(file1Key: string, file2Key: string): Job {
    Job(Processing, file1Key, file2Key, "", "", 0.0, "", false, None, None, "")
  }

  predicate HasResult(j: Job) {
    !Blank(j.resultKey) || !Blank(j.resultPath)
  }
}
