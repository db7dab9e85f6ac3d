/** The pay-gated job pipeline as a transition system for one job.

    Five kinds of actor change the job record concurrently: the upload handler, compare-workers,
    payment-workers, payment notifications and cancel requests.  Every actor reads the record
    once, works on that stale copy, and later applies one of the closures of JobUpdates to the
    record of that moment.  Between any two of these steps any other actor may take any number
    of steps, deliveries may be repeated, locks may expire, workers may crash, calls may be lost.

    Jobs do not share state: records, locks and stream entries are keyed by job. */
module Pipeline {
  import opened Text
  import opened Domain
  import opened JobUpdates
  import Amount

  // ----- Streams, locks and worker processes of one stage -----

  /** Whether a handled entry is acknowledged or kept pending. */
  datatype Outcome = Ack | Keep

  /** Where a handler is; `W` says what it does inside its critical section. */
  datatype Pc<W> =
    | Acquiring                // about to take the job's lock
    | Working(w: W)            // holds the lock
    | Unlocking(out: Outcome)  // the deferred release is due
    | Returned(out: Outcome)   // Process has returned, the ACK rule is due

  datatype Handler<W> = Handler(msg: nat, pc: Pc<W>)

  /** One stream with its consumer group, the stage's lock key, and the live handlers by token. */
  datatype Stage<W> = Stage(
    unread: set<nat>,
    pending: set<nat>,
    lock: Option<nat>,
    live: map<nat, Handler<W>>)

  datatype QueueOp =
    | Deliver(m: nat)                        // XREADGROUP
    | Claim(m: nat)                          // XAUTOCLAIM
    | Acquire(h: nat)                        // SET NX answered
    | AcquireFails(h: nat, applied: bool)    // SET NX failed for the client
    | Unlock(h: nat, applied: bool)          // release script, or its loss
    | Finish(h: nat, applied: bool)          // the ACK rule, or a lost XACK
    | Crash(h: nat)
    | Panic(h: nat)
    | Lapse                                  // the lock key's time to live ran out

  predicate Critical<W>(pc: Pc<W>) {
    pc.Working? || pc.Unlocking?
  }

  predicate QueueEnabled<W>(st: Stage<W>, op: QueueOp) {
    match op
    case Deliver(m) => m in st.unread
    case Claim(m) => m in st.pending
    case Acquire(h) => h in st.live && st.live[h].pc.Acquiring?
    case AcquireFails(h, applied) => h in st.live && st.live[h].pc.Acquiring? && (applied ==> st.lock.None?)
    case Unlock(h, _) => h in st.live && st.live[h].pc.Unlocking?
    case Finish(h, _) => h in st.live && st.live[h].pc.Returned?
    case Crash(h) => h in st.live
    case Panic(h) => h in st.live && st.live[h].pc.Working?
    case Lapse => st.lock.Some?
  }

  function Moved<W>(st: Stage<W>, h: nat, pc: Pc<W>): Stage<W>
    requires h in st.live
  {
    st.(live := st.live[h := st.live[h].(pc := pc)])
  }

  function Removed<W>(st: Stage<W>, h: nat): Stage<W> {
    st.(live := map k | k in st.live && k != h :: st.live[k])
  }

  function QueueApply<W>(st: Stage<W>, op: QueueOp, id: nat, first: W): Stage<W>
    requires QueueEnabled(st, op)
  {
    match op
    case Deliver(m) =>
      st.(unread := st.unread - {m}, pending := st.pending + {m}, live := st.live[id := Handler(m, Acquiring)])
    case Claim(m) => st.(live := st.live[id := Handler(m, Acquiring)])
    case Acquire(h) =>
      if st.lock.None? then Moved(st, h, Working(first)).(lock := Some(h))
      else Moved(st, h, Returned(Ack))
    case AcquireFails(h, applied) =>
      Moved(st, h, Returned(Keep)).(lock := if applied then Some(h) else st.lock)
    case Unlock(h, applied) =>
      Moved(st, h, Returned(st.live[h].pc.out)).(lock := if applied && st.lock == Some(h) then None else st.lock)
    case Finish(h, applied) =>
      var acked := st.live[h].pc.out == Ack && applied;
      Removed(st, h).(pending := if acked then st.pending - {st.live[h].msg} else st.pending)
    case Crash(h) => Removed(st, h)
    case Panic(h) => Moved(st, h, Unlocking(Ack))
    case Lapse => st.(lock := None)
  }

  // ----- What the two kinds of worker do inside their critical section -----

  datatype CompareWork =
    | ReadJob            // first Get
    | Reset              // "mark as processing"
    | Build              // download, convert, compare, upload
    | Persist            // record the result key
    | ReadAgain          // second Get
    | HandOff            // enqueue the pay-gate stage
    | GiveUp(msg: string)  // fail

  datatype PayWork =
    | ReadPaidState
    | ReleaseJob(key: string)
    | ReleaseFreeJob(key: string)
    | PlaceOrder(key: string, fee: int)
    | StoreOrder(key: string, fee: int, url: string)
    | Reject(msg: string)  // fail

  /** How the messages of a failed order and of a failed enqueue begin. */
  const ORDER_FAILED: string := "创建微信支付订单失败: "
  const ENQUEUE_FAILED: string := "投递任务失败: "

  /** What compare-worker does next, given the record it read. */
  function AfterRead(job: Option<Job>, ossEnabled: bool): Pc<CompareWork> {
    match job
    case None => Unlocking(Ack)
    case Some(j) =>
      if j.status == Cancelled || j.status == Ready || j.status == Failed then Unlocking(Ack)
      else if !Blank(j.resultKey) && (j.status == AwaitingPayment || j.status == Processing) then Working(HandOff)
      else if !ossEnabled then Working(GiveUp("OSS 未启用"))
      else if j.file1Key == "" || j.file2Key == "" then Working(GiveUp("输入文件 OSSKey 为空"))
      else Working(Reset)
  }

  function AfterReadAgain(job: Option<Job>): Pc<CompareWork> {
    match job
    case None => Unlocking(Ack)
    case Some(j) => if j.status == Cancelled then Unlocking(Ack) else Working(HandOff)
  }

  /** What payment-worker does next, given the record it read and the configured fee. */
  function AfterPayRead(job: Option<Job>, fee: int): Pc<PayWork> {
    match job
    case None => Unlocking(Ack)
    case Some(j) =>
      if j.status == Cancelled || j.status == Ready || j.status == Failed then Unlocking(Ack)
      else
        var key := TrimSpace(j.resultKey);
        if key == "" then Unlocking(Keep)  // "result not ready"
        else if j.paid then Working(ReleaseJob(key))
        else if fee <= 0 then Working(ReleaseFreeJob(key))
        else if j.status == AwaitingPayment && !Blank(j.codeURL) then Unlocking(Ack)
        else Working(PlaceOrder(key, fee))
  }

  // ----- The whole system -----

  datatype ApiPc = Creating | Enqueueing | Failing(msg: string) | ApiDone

  datatype CancelPc = ClosingOrder | Cancelling

  /** An order the payment provider confirmed. */
  datatype Order = Order(fee: int, url: string)

  datatype Sys = Sys(
    objectKey: string,             // where this job's result goes
    job: Option<Job>,              // the shared record
    api: ApiPc,                    // the upload handler
    cmp: Stage<CompareWork>,
    pay: Stage<PayWork>,
    cancels: map<nat, CancelPc>,   // cancel requests past their read
    notifies: set<nat>,            // notifications past their amount check
    nextId: nat,                   // tokens, entry ids and request ids are never reused
    orders: seq<Order>,            // orders placed so far
    orderCalls: nat,               // calls of CreateNativeOrder so far
    codeStored: bool)              // a code URL was stored in the record at some time

  datatype CompareAct =
    | ReadOk(ossEnabled: bool)
    | ReadFails
    | Write(effect: bool)            // an Update, or one that had no effect
    | BuildOk
    | BuildFails(msg: string)
    | EnqueueOk
    | EnqueueFails(added: bool)

  datatype PayAct =
    | PayReadOk(fee: int)
    | PayReadFails
    | PayWrite(effect: bool, now: Time, yuan: real)
    | OrderOk(url: string)
    | OrderFails(msg: string)

  /** The upload handler. */
  datatype ApiAct =
    | Create(file1Key: string, file2Key: string, ok: bool)
    | EnqueueJob(ok: bool, added: bool, msg: string)
    | RecordFailure(effect: bool)
    | ApiCrash

  /** Cancel requests and payment notifications. */
  datatype RequestAct =
    | CancelRead
    | CancelClose(c: nat, ok: bool)
    | CancelWrite(c: nat, now: Time, effect: bool)
    | NotifyRead(total: int, readOk: bool, product: real)
    | NotifyWrite(n: nat, now: Time, effect: bool)

  datatype Step =
    | Api(a: ApiAct)
    | CmpQueue(op: QueueOp)
    | PayQueue(op: QueueOp)
    | CmpDo(h: nat, act: CompareAct)
    | PayDo(h: nat, pact: PayAct)
    | Request(r: RequestAct)

  function EmptyStage<W>(): Stage<W> { Stage({}, {}, None, map[]) }

  predicate Init(s: Sys) {
    && s.objectKey != "" && Trimmed(s.objectKey)
    && s == Sys(s.objectKey, None, Creating, EmptyStage(), EmptyStage(), map[], {}, 0, [], 0, false)
  }

  function Enqueued<W>(st: Stage<W>, m: nat): Stage<W> {
    st.(unread := st.unread + {m})
  }

  predicate CompareEnabled(s: Sys, h: nat, act: CompareAct) {
    && h in s.cmp.live && s.cmp.live[h].pc.Working?
    && var w := s.cmp.live[h].pc.w;
    match act
    case ReadOk(_) => w.ReadJob? || w.ReadAgain?
    case ReadFails => w.ReadJob? || w.ReadAgain?
    case Write(_) => w.Reset? || w.Persist? || w.GiveUp?
    case BuildOk => w.Build?
    case BuildFails(_) => w.Build?
    case EnqueueOk => w.HandOff?
    case EnqueueFails(_) => w.HandOff?
  }

  predicate PayEnabled(s: Sys, h: nat, act: PayAct) {
    && h in s.pay.live && s.pay.live[h].pc.Working?
    && var w := s.pay.live[h].pc.w;
    match act
    case PayReadOk(_) => w.ReadPaidState?
    case PayReadFails => w.ReadPaidState?
    case PayWrite(_, _, yuan) =>
      && (w.ReleaseJob? || w.ReleaseFreeJob? || w.StoreOrder? || w.Reject?)
      && (w.StoreOrder? ==> Amount.StoredAmount(w.fee, yuan))
    case OrderOk(url) => w.PlaceOrder? && !Blank(url)
    case OrderFails(_) => w.PlaceOrder?
  }

  predicate ApiEnabled(s: Sys, a: ApiAct) {
    match a
    case Create(_, _, _) => s.api.Creating?
    case EnqueueJob(_, _, _) => s.api.Enqueueing?
    case RecordFailure(_) => s.api.Failing?
    case ApiCrash => !s.api.ApiDone?
  }

  /** The cancel handler goes on to its update; otherwise it only answers. */
  predicate CancelAllowed(job: Option<Job>) {
    job.Some? && job.value.status != Cancelled && !job.value.paid && job.value.status != Ready
  }

  predicate RequestEnabled(s: Sys, r: RequestAct) {
    match r
    case CancelRead => CancelAllowed(s.job)
    case CancelClose(c, _) => c in s.cancels && s.cancels[c].ClosingOrder?
    case CancelWrite(c, _, _) => c in s.cancels && s.cancels[c].Cancelling?
    case NotifyRead(total, readOk, product) =>
      s.job.Some? && readOk ==> Amount.AcceptedAt(s.job.value.amountYuan, product, total)
    case NotifyWrite(n, _, _) => n in s.notifies
  }

  predicate Enabled(s: Sys, step: Step) {
    match step
    case Api(a) => ApiEnabled(s, a)
    case CmpQueue(op) => QueueEnabled(s.cmp, op)
    case PayQueue(op) => QueueEnabled(s.pay, op)
    case CmpDo(h, act) => CompareEnabled(s, h, act)
    case PayDo(h, act) => PayEnabled(s, h, act)
    case Request(r) => RequestEnabled(s, r)
  }

  /** What a compare-worker's update leaves in the record. */
  function CompareWrite(job: Option<Job>, w: CompareWork, objectKey: string, effect: bool): Option<Job> {
    if job.None? || !effect then job
    else
      match w
      case Reset => Some(ResetForCompare(job.value))
      case Persist => Some(PersistResult(job.value, objectKey))
      case GiveUp(msg) => Some(MarkFailed(job.value, msg))
      case _ => job
  }

  function CompareApply(s: Sys, h: nat, act: CompareAct): Sys
    requires CompareEnabled(s, h, act)
  {
    var w := s.cmp.live[h].pc.w;
    match act
    case ReadOk(oss) => s.(cmp := Moved(s.cmp, h, if w.ReadJob? then AfterRead(s.job, oss) else AfterReadAgain(s.job)))
    case ReadFails => s.(cmp := Moved(s.cmp, h, Unlocking(Keep)))
    case Write(effect) =>
      var next := if w.Reset? then Working(Build) else if w.Persist? then Working(ReadAgain) else Unlocking(Ack);
      s.(cmp := Moved(s.cmp, h, next), job := CompareWrite(s.job, w, s.objectKey, effect))
    case BuildOk => s.(cmp := Moved(s.cmp, h, Working(Persist)))
    case BuildFails(msg) => s.(cmp := Moved(s.cmp, h, Working(GiveUp(msg))))
    case EnqueueOk =>
      s.(cmp := Moved(s.cmp, h, Unlocking(Ack)), pay := Enqueued(s.pay, s.nextId), nextId := s.nextId + 1)
    case EnqueueFails(added) =>
      // keep pending; the entry may have been added all the same
      s.(cmp := Moved(s.cmp, h, Unlocking(Keep)), pay := if added then Enqueued(s.pay, s.nextId) else s.pay,
         nextId := s.nextId + 1)
  }

  /** What a payment-worker's update leaves in the record. */
  function PayWriteJob(job: Option<Job>, w: PayWork, effect: bool, now: Time, yuan: real): Option<Job> {
    if job.None? || !effect then job
    else
      match w
      case ReleaseJob(key) => Some(ReleasePaid(job.value, key))
      case ReleaseFreeJob(key) => Some(ReleaseFree(job.value, key, now))
      case StoreOrder(key, _, url) => Some(AwaitPayment(job.value, key, yuan, url))
      case Reject(msg) => Some(MarkFailed(job.value, msg))
      case _ => job
  }

  function PayApply(s: Sys, h: nat, act: PayAct): Sys
    requires PayEnabled(s, h, act)
  {
    var w := s.pay.live[h].pc.w;
    match act
    case PayReadOk(fee) => s.(pay := Moved(s.pay, h, AfterPayRead(s.job, fee)))
    case PayReadFails => s.(pay := Moved(s.pay, h, Unlocking(Keep)))
    case PayWrite(effect, now, yuan) =>
      var stored := w.StoreOrder? && effect && s.job.Some? && s.job.value.status != Cancelled && !s.job.value.paid;
      s.(pay := Moved(s.pay, h, Unlocking(Ack)), job := PayWriteJob(s.job, w, effect, now, yuan),
         codeStored := s.codeStored || stored)
    case OrderOk(url) =>
      s.(pay := Moved(s.pay, h, Working(StoreOrder(w.key, w.fee, url))),
         orders := s.orders + [Order(w.fee, url)], orderCalls := s.orderCalls + 1)
    case OrderFails(msg) =>
      s.(pay := Moved(s.pay, h, Working(Reject(ORDER_FAILED + msg))), orderCalls := s.orderCalls + 1)
  }

  function ApiApply(s: Sys, a: ApiAct): Sys
    requires ApiEnabled(s, a)
  {
    match a
    case Create(f1, f2, ok) => s.(api := Enqueueing, job := if ok then Some(NewJob(f1, f2)) else s.job)
    case EnqueueJob(ok, added, msg) =>
      s.(api := if ok then ApiDone else Failing(ENQUEUE_FAILED + msg),
         cmp := if ok || added then Enqueued(s.cmp, s.nextId) else s.cmp, nextId := s.nextId + 1)
    case RecordFailure(effect) =>
      s.(api := ApiDone, job := if s.job.Some? && effect then Some(MarkFailed(s.job.value, s.api.msg)) else s.job)
    case ApiCrash => s.(api := ApiDone)
  }

  function RequestApply(s: Sys, r: RequestAct): Sys
    requires RequestEnabled(s, r)
  {
    match r
    case CancelRead =>
      var pc := if s.job.value.status == AwaitingPayment then ClosingOrder else Cancelling;
      s.(cancels := s.cancels[s.nextId := pc], nextId := s.nextId + 1)
    case CancelClose(c, ok) =>
      s.(cancels := if ok then s.cancels[c := Cancelling] else s.cancels - {c})
    case CancelWrite(c, now, effect) =>
      s.(cancels := s.cancels - {c},
         job := if s.job.Some? && effect then Some(CancelUnpaid(s.job.value, now)) else s.job)
    case NotifyRead(_, _, _) => s.(notifies := s.notifies + {s.nextId}, nextId := s.nextId + 1)
    case NotifyWrite(n, now, effect) =>
      s.(notifies := s.notifies - {n},
         job := if s.job.Some? && effect then Some(ConfirmPayment(s.job.value, now)) else s.job)
  }

  function Apply(s: Sys, step: Step): Sys
    requires Enabled(s, step)
  {
    match step
    case Api(a) => ApiApply(s, a)
    case CmpQueue(op) => s.(cmp := QueueApply(s.cmp, op, s.nextId, ReadJob), nextId := s.nextId + 1)
    case PayQueue(op) => s.(pay := QueueApply(s.pay, op, s.nextId, ReadPaidState), nextId := s.nextId + 1)
    case CmpDo(h, act) => CompareApply(s, h, act)
    case PayDo(h, act) => PayApply(s, h, act)
    case Request(r) => RequestApply(s, r)
  }

  // ----- Environment assumptions -----

  predicate OwnerBusy<W>(st: Stage<W>) {
    st.lock.Some? && st.lock.value in st.live && Critical(st.live[st.lock.value].pc)
  }

  /** No assumption. */
  predicate AnyEnvironment(s: Sys, step: Step) { true }

  /** A1: a lock does not expire while its holder is inside its critical section
      (Timing derives this from timely refreshes). */
  predicate LocksHold(s: Sys, step: Step) {
    match step
    case CmpQueue(Lapse) => !OwnerBusy(s.cmp)
    case PayQueue(Lapse) => !OwnerBusy(s.pay)
    case _ => true
  }

  /** A2: a payment notification reaches a job only after a code URL was stored for it. */
  predicate PaidAfterQuote(s: Sys, step: Step) {
    step.Request? && step.r.NotifyRead? ==> s.codeStored
  }

  /** A3: an enqueue error at the upload handler means that nothing was enqueued. */
  predicate EnqueueErrorsAreClean(s: Sys, step: Step) {
    step.Api? && step.a.EnqueueJob? && !step.a.ok ==> !step.a.added
  }

  // ----- Runs -----

  /** `steps` leads from `s` to `t`, and each of its steps meets the environment assumption. */
  ghost predicate Run(s: Sys, steps: seq<Step>, t: Sys, assumed: (Sys, Step) -> bool)
    decreases |steps|
  {
    if steps == [] then s == t
    else Enabled(s, steps[0]) && assumed(s, steps[0]) && Run(Apply(s, steps[0]), steps[1..], t, assumed)
  }

  lemma {:induction false} RunExtends(s: Sys, steps: seq<Step>, t: Sys, step: Step, assumed: (Sys, Step) -> bool)
    requires Run(s, steps, t, assumed) && Enabled(t, step) && assumed(t, step)
    ensures Run(s, steps + [step], Apply(t, step), assumed)
    decreases |steps|
  {
    if steps == [] {
      assert ([] + [step])[1..] == [];
      assert Run(Apply(s, step), [], Apply(t, step), assumed);
    } else {
      RunExtends(Apply(s, steps[0]), steps[1..], t, step, assumed);
      assert (steps + [step])[1..] == steps[1..] + [step];
    }
  }
}
