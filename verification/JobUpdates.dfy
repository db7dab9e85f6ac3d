/** The closures that the actors hand to the store's Update, one function per closure,
    and the same closures as they are written in the program: as mutations of a record. */
module JobUpdates {
  import opened Text
  import opened Domain

  /** compare-worker: mark as processing, just before the slow work. */
  function ResetForCompare(j: Job): Job {
    if j.status == Cancelled then j else j.(status := Processing, error := "")
  }

  /** compare-worker: record where the result was uploaded. */
  function PersistResult(j: Job, key: string): Job {
    if j.status == Cancelled then j else j.(resultKey := key, resultPath := "")
  }

  /** `fail` of both workers and the enqueue failure of the upload handler: no guard at all. */
  function MarkFailed(j: Job, msg: string): Job {
    j.(status := Failed, error := msg)
  }

  /** payment-worker: the payment was already confirmed. */
  function ReleasePaid(j: Job, key: string): Job {
    if j.status == Cancelled then j
    else j.(status := Ready, resultKey := key, resultPath := "", amountYuan := 0.0, codeURL := "", error := "")
  }

  /** payment-worker: the job is free of charge. */
  function ReleaseFree(j: Job, key: string, now: Time): Job {
    if j.status == Cancelled then j
    else
      var p := if j.paid then j else j.(paid := true, paidAt := Some(now));
      p.(status := Ready, resultKey := key, resultPath := "", amountYuan := 0.0, codeURL := "", error := "")
  }

  /** payment-worker: an order was placed, wait for its payment. */
  function AwaitPayment(j: Job, key: string, yuan: real, url: string): Job {
    if j.status == Cancelled || j.paid then j
    else j.(status := AwaitingPayment, resultKey := key, resultPath := "", amountYuan := yuan, codeURL := url,
      error := "")
  }

  /** payment notification. */
  function ConfirmPayment(j: Job, now: Time): Job {
    if j.paid then j
    else
      var p := j.(paid := true, paidAt := Some(now));
      if HasResult(p) && (p.status == AwaitingPayment || p.status == Processing) then
        p.(status := Ready, amountYuan := 0.0, codeURL := "")
      else if p.status == AwaitingPayment then p.(status := Processing)
      else p
  }

  /** cancel request. */
  function CancelUnpaid(j: Job, now: Time): Job {
    if j.paid then j else j.(status := Cancelled, cancelledAt := Some(now))
  }

  /** The job record as the closures see it: an object they assign to field by field. */
  class JobRecord {
    var status: Status
    const file1Key: string
    const file2Key: string
    var resultKey: string
    var resultPath: string
    var amountYuan: real
    var codeURL: string
    var paid: bool
    var paidAt: Option<Time>
    var cancelledAt: Option<Time>
    var error: string

    constructor (j: Job)
      ensures Snapshot() == j
    {
      status, file1Key, file2Key := j.status, j.file1Key, j.file2Key;
      resultKey, resultPath := j.resultKey, j.resultPath;
      amountYuan, codeURL := j.amountYuan, j.codeURL;
      paid, paidAt, cancelledAt, error := j.paid, j.paidAt, j.cancelledAt, j.error;
    }

    function Snapshot(): Job
      reads this
    {
      Job(status, file1Key, file2Key, resultKey, resultPath, amountYuan, codeURL, paid, paidAt, cancelledAt, error)
    }

    method Reset()
      modifies this
      ensures Snapshot() == ResetForCompare(old(Snapshot()))
      ensures old(status) == Cancelled ==> Snapshot() == old(Snapshot())
      ensures old(status) != Cancelled ==> Snapshot() == old(Snapshot()).(status := Processing, error := "")
    {
      if status == Cancelled {
        return;
      }
      status := Processing;
      error := "";
    }

    method Persist(key: string)
      modifies this
      ensures Snapshot() == PersistResult(old(Snapshot()), key)
      ensures old(status) == Cancelled ==> Snapshot() == old(Snapshot())
      ensures old(status) != Cancelled ==> Snapshot() == old(Snapshot()).(resultKey := key, resultPath := "")
    {
      if status == Cancelled {
        return;
      }
      resultKey := key;
      resultPath := "";
    }

    method Fail(msg: string)
      modifies this
      ensures Snapshot() == MarkFailed(old(Snapshot()), msg)
      ensures Snapshot() == old(Snapshot()).(status := Failed, error := msg)
    {
      status := Failed;
      error := msg;
    }

    method Release(key: string)
      modifies this
      ensures Snapshot() == ReleasePaid(old(Snapshot()), key)
      ensures old(status) == Cancelled ==> Snapshot() == old(Snapshot())
      ensures old(status) != Cancelled ==>
        Snapshot() == old(Snapshot()).(status := Ready, resultKey := key, resultPath := "", amountYuan := 0.0,
                                       codeURL := "", error := "")
    {
      if status == Cancelled {
        return;
      }
      status := Ready;
      resultKey := key;
      resultPath := "";
      amountYuan := 0.0;
      codeURL := "";
      error := "";
    }

    method ReleaseForFree(key: string, now: Time)
      modifies this
      ensures Snapshot() == ReleaseFree(old(Snapshot()), key, now)
      ensures old(status) == Cancelled ==> Snapshot() == old(Snapshot())
      ensures old(status) != Cancelled ==>
        Snapshot() == old(Snapshot()).(status := Ready, resultKey := key, resultPath := "", amountYuan := 0.0,
                                       codeURL := "", error := "", paid := true,
                                       paidAt := if old(paid) then old(paidAt) else Some(now))
    {
      if status == Cancelled {
        return;
      }
      if !paid {
        paid := true;
        paidAt := Some(now);
      }
      status := Ready;
      resultKey := key;
      resultPath := "";
      amountYuan := 0.0;
      codeURL := "";
      error := "";
    }

    method Await(key: string, yuan: real, url: string)
      modifies this
      ensures Snapshot() == AwaitPayment(old(Snapshot()), key, yuan, url)
      ensures old(status) == Cancelled || old(paid) ==> Snapshot() == old(Snapshot())
      ensures old(status) != Cancelled && !old(paid) ==>
        Snapshot() == old(Snapshot()).(status := AwaitingPayment, resultKey := key, resultPath := "",
                                       amountYuan := yuan, codeURL := url, error := "")
    {
      if status == Cancelled || paid {
        return;
      }
      status := AwaitingPayment;
      resultKey := key;
      resultPath := "";
      amountYuan := yuan;
      codeURL := url;
      error := "";
    }

    method Confirm(now: Time)
      modifies this
      ensures Snapshot() == ConfirmPayment(old(Snapshot()), now)
      ensures old(paid) ==> Snapshot() == old(Snapshot())
      ensures !old(paid) ==>
        var j := old(Snapshot()).(paid := true, paidAt := Some(now));
        var result, pending := !Blank(j.resultKey) || !Blank(j.resultPath), j.status == AwaitingPayment;
        Snapshot() == if result && (pending || j.status == Processing)
                        then j.(status := Ready, amountYuan := 0.0, codeURL := "")
                      else if pending then j.(status := Processing) else j
    {
      if paid {
        return;
      }
      paid := true;
      paidAt := Some(now);
      if HasResult(Snapshot()) && (status == AwaitingPayment || status == Processing) {
        status := Ready;
        amountYuan := 0.0;
        codeURL := "";
        return;
      }
      if status == AwaitingPayment {
        status := Processing;
      }
    }

    method Cancel(now: Time)
      modifies this
      ensures Snapshot() == CancelUnpaid(old(Snapshot()), now)
      ensures Snapshot() == if old(paid) then old(Snapshot())
                            else old(Snapshot()).(status := Cancelled, cancelledAt := Some(now))
    {
      if paid {
        return;
      }
      status := Cancelled;
      cancelledAt := Some(now);
    }
  }
}
