/** What follows from assumption A1, that a lock outlives its holder's critical section. */
module Exclusion {
  import opened Text
  import opened Domain
  import opened JobUpdates
  import opened Pipeline
  import opened Safety

  /** Tokens are never reused. */
  predicate Numbered<W>(st: Stage<W>, n: nat) {
    && (forall h :: h in st.live ==> h < n)
    && (st.lock.Some? ==> st.lock.value < n)
  }

  /** Whoever is in the critical section owns the lock, so there is at most one. */
  predicate Exclusive<W>(st: Stage<W>) {
    forall h :: h in st.live && Critical(st.live[h].pc) ==> st.lock == Some(h)
  }

  /** A compare-worker between its first read and its persist still owes the job its result. */
  predicate Owing(w: CompareWork) {
    w.Reset? || w.Build? || w.Persist? || w.GiveUp?
  }

  predicate IsOwing(pc: Pc<CompareWork>) {
    pc.Working? && Owing(pc.w)
  }

  predicate OwingSeesNoResult(s: Sys) {
    forall h :: h in s.cmp.live && IsOwing(s.cmp.live[h].pc) ==>
      s.job.Some? && s.job.value.resultKey == ""
  }

  predicate Locked(s: Sys) {
    && Safe(s)
    && Numbered(s.cmp, s.nextId) && Numbered(s.pay, s.nextId)
    && Exclusive(s.cmp) && Exclusive(s.pay)
    && OwingSeesNoResult(s)
  }

  lemma QueueKeepsExclusion<W>(st: Stage<W>, op: QueueOp, id: nat, first: W)
    requires QueueEnabled(st, op) && Numbered(st, id) && Exclusive(st)
    requires op.Lapse? ==> !OwnerBusy(st)
    ensures Numbered(QueueApply(st, op, id, first), id + 1) && Exclusive(QueueApply(st, op, id, first))
  {
  }

  /** A worker that is told to go on and produce the result has read a record without one. */
  lemma ReadOwes(job: Option<Job>, ossEnabled: bool)
    ensures Critical(AfterRead(job, ossEnabled)) && Critical(AfterReadAgain(job))
    ensures IsOwing(AfterRead(job, ossEnabled)) ==>
      job.Some? && Blank(job.value.resultKey) && (job.value.status == Processing || job.value.status == AwaitingPayment)
    ensures !IsOwing(AfterReadAgain(job))
  {
  }

  /** A handler that moves on within its critical section, by whatever decision. */
  lemma MoveLocked(s: Sys, h: nat, pc: Pc<CompareWork>)
    requires Locked(s) && h in s.cmp.live && Critical(s.cmp.live[h].pc) && Critical(pc)
    requires IsOwing(pc) ==> s.job.Some? && s.job.value.resultKey == ""
    ensures Locked(s.(cmp := Moved(s.cmp, h, pc)))
  {
    FrameSafe(s, s.(cmp := Moved(s.cmp, h, pc)));
  }

  lemma CompareReadLocked(s: Sys, h: nat, ossEnabled: bool)
    requires Locked(s) && CompareEnabled(s, h, ReadOk(ossEnabled))
    ensures Locked(CompareApply(s, h, ReadOk(ossEnabled)))
  {
    ReadOwes(s.job, ossEnabled);
    if s.job.Some? {
      KeyNotBlank(s);
    }
    MoveLocked(s, h, if s.cmp.live[h].pc.w.ReadJob? then AfterRead(s.job, ossEnabled) else AfterReadAgain(s.job));
  }

  /** The record changes, but for the worker that writes nobody owes a result. */
  lemma CompareWriteLocked(s: Sys, h: nat, effect: bool)
    requires Locked(s) && CompareEnabled(s, h, Write(effect))
    ensures Locked(CompareApply(s, h, Write(effect)))
  {
    CompareStepSafe(s, h, Write(effect));
    var t := CompareApply(s, h, Write(effect));
    forall k | k in t.cmp.live && IsOwing(t.cmp.live[k].pc)
      ensures t.job.Some? && t.job.value.resultKey == ""
    {
      assert s.cmp.lock == Some(h) && k == h;
    }
  }

  lemma CompareStepLocked(s: Sys, h: nat, act: CompareAct)
    requires Locked(s) && CompareEnabled(s, h, act)
    ensures Locked(CompareApply(s, h, act))
  {
    match act
    case ReadOk(oss) => CompareReadLocked(s, h, oss);
    case Write(effect) => CompareWriteLocked(s, h, effect);
    case ReadFails => MoveLocked(s, h, Unlocking(Keep));
    case BuildOk => MoveLocked(s, h, Working(Persist));
    case BuildFails(msg) => MoveLocked(s, h, Working(GiveUp(msg)));
    case EnqueueOk =>
      CompareStepSafe(s, h, act);
      MoveLocked(s, h, Unlocking(Ack));
    case EnqueueFails(added) =>
      CompareStepSafe(s, h, act);
      MoveLocked(s, h, Unlocking(Keep));
  }

  lemma PayStepLocked(s: Sys, h: nat, act: PayAct)
    requires Locked(s) && PayEnabled(s, h, act)
    ensures Locked(PayApply(s, h, act))
  {
    PayStepSafe(s, h, act);
    assert SafePayWork(s.pay.live[h].pc.w, s);
  }

  lemma ApiStepLocked(s: Sys, a: ApiAct)
    requires Locked(s) && ApiEnabled(s, a)
    ensures Locked(ApiApply(s, a))
  {
    ApiStepSafe(s, a);
  }

  lemma RequestStepLocked(s: Sys, r: RequestAct)
    requires Locked(s) && RequestEnabled(s, r)
    ensures Locked(RequestApply(s, r))
  {
    RequestStepSafe(s, r);
  }

  lemma StepLocked(s: Sys, step: Step)
    requires Locked(s) && Enabled(s, step) && LocksHold(s, step)
    ensures Locked(Apply(s, step)) && Grows(s, Apply(s, step))
  {
    StepSafe(s, step);
    match step
    case CmpQueue(op) => QueueKeepsExclusion(s.cmp, op, s.nextId, ReadJob);
    case PayQueue(op) => QueueKeepsExclusion(s.pay, op, s.nextId, ReadPaidState);
    case CmpDo(h, act) => CompareStepLocked(s, h, act);
    case PayDo(h, act) => PayStepLocked(s, h, act);
    case Api(a) => ApiStepLocked(s, a);
    case Request(r) => RequestStepLocked(s, r);
  }

  /** A1 makes the handlers of one stage exclusive in every reachable state. */
  lemma {:induction false} ReachableLocked(s: Sys, steps: seq<Step>, t: Sys, env: (Sys, Step) -> bool)
    requires Locked(s) && Run(s, steps, t, env)
    requires forall x, step :: env(x, step) ==> LocksHold(x, step)
    ensures Locked(t)
    decreases |steps|
  {
    if steps != [] {
      StepLocked(s, steps[0]);
      ReachableLocked(Apply(s, steps[0]), steps[1..], t, env);
    }
  }

  // ----- One order per job -----

  /** The job has its result and is past the state in which an order may be placed. */
  predicate Settled(s: Sys) {
    s.job.Some? && s.job.value.resultKey != "" && s.job.value.status != Processing
  }

  predicate Ordering(w: PayWork) {
    w.PlaceOrder? || w.StoreOrder? || w.Reject?
  }

  predicate Recording(pc: Pc<PayWork>) {
    pc.Working? && (pc.w.StoreOrder? || pc.w.Reject?)
  }

  predicate IsOrdering(pc: Pc<PayWork>) {
    pc.Working? && Ordering(pc.w)
  }

  predicate Once(s: Sys) {
    && Locked(s)
    && s.orderCalls <= 1
    && (s.orderCalls == 1 ==> Settled(s) || exists h :: h in s.pay.live && Recording(s.pay.live[h].pc))
    && (forall h :: h in s.pay.live && s.pay.live[h].pc.Working? && s.pay.live[h].pc.w.PlaceOrder? ==>
      s.orderCalls == 0)
    && (forall h :: h in s.pay.live && IsOrdering(s.pay.live[h].pc) ==>
        s.job.Some? && s.job.value.resultKey != "" && (s.job.value.paid ==> s.job.value.status != Processing))
  }

  /** Once an order call returned, its outcome reaches the record: that update takes effect, and the
      worker does not die before it. */
  predicate OrdersRecorded(s: Sys, step: Step) {
    match step
    case PayDo(h, PayWrite(effect, _, _)) => h in s.pay.live && Recording(s.pay.live[h].pc) ==> effect
    case PayQueue(Crash(h)) => h in s.pay.live ==> !Recording(s.pay.live[h].pc)
    case PayQueue(Panic(h)) => h in s.pay.live ==> !Recording(s.pay.live[h].pc)
    case _ => true
  }

  /** With a result in place, no actor moves a job back to Processing. */
  lemma SettledStays(s: Sys, step: Step)
    requires Locked(s) && Enabled(s, step) && LocksHold(s, step) && Settled(s)
    ensures Settled(Apply(s, step))
  {
    StepSafe(s, step);
    KeyNotBlank(s);
    if step.PayDo? {
      assert SafePayWork(s.pay.live[step.h].pc.w, s);
    }
  }

  /** Steps that neither place an order nor move a handler that is busy with one. */
  lemma OnceFrame(s: Sys, t: Sys)
    requires Once(s) && Locked(t) && (Settled(s) ==> Settled(t))
    requires t.orderCalls == s.orderCalls && Grows(s, t)
    requires forall k :: k in s.pay.live && Recording(s.pay.live[k].pc) ==>
      k in t.pay.live && t.pay.live[k].pc == s.pay.live[k].pc
    requires forall k :: k in t.pay.live && IsOrdering(t.pay.live[k].pc) ==>
      k in s.pay.live && s.pay.live[k].pc == t.pay.live[k].pc
    requires forall k :: k in s.pay.live && IsOrdering(s.pay.live[k].pc) ==>
      t.job.Some? && (t.job.value.paid ==> t.job.value.status != Processing)
    ensures Once(t)
  {
    if h :| h in s.pay.live && Recording(s.pay.live[h].pc) {
      assert Recording(t.pay.live[h].pc);
    }
  }

  /** While a worker is busy with an order, a payment that arrives releases the job. */
  lemma PaidWhileOrdering(s: Sys, step: Step, h: nat)
    requires Once(s) && Enabled(s, step) && LocksHold(s, step) && !step.PayDo?
    requires h in s.pay.live && IsOrdering(s.pay.live[h].pc)
    ensures Apply(s, step).job.Some?
    ensures Apply(s, step).job.value.paid ==> Apply(s, step).job.value.status != Processing
  {
    KeyNotBlank(s);
    StepSafe(s, step);
  }

  /** A queue operation starts a handler's work or ends it, but does none of it. */
  lemma QueueDoesNoWork<W>(st: Stage<W>, op: QueueOp, id: nat, first: W)
    requires QueueEnabled(st, op)
    ensures forall k :: k in QueueApply(st, op, id, first).live && QueueApply(st, op, id, first).live[k].pc.Working? ==>
      || (k in st.live && QueueApply(st, op, id, first).live[k].pc == st.live[k].pc)
      || QueueApply(st, op, id, first).live[k].pc == Working(first)
    ensures forall k :: k in st.live && k != id && st.live[k].pc.Working? && op != Crash(k) && op != Panic(k) ==>
      k in QueueApply(st, op, id, first).live && QueueApply(st, op, id, first).live[k].pc == st.live[k].pc
  {
  }

  /** Nor does it stop a handler in the middle of an order, unless that crashes or panics. */
  lemma OrdersGoOn(st: Stage<PayWork>, op: QueueOp, id: nat)
    requires QueueEnabled(st, op) && Numbered(st, id)
    requires op.Crash? || op.Panic? ==> !Recording(st.live[op.h].pc)
    ensures var after := QueueApply(st, op, id, ReadPaidState);
      && (forall k :: k in st.live && Recording(st.live[k].pc) ==>
        k in after.live && after.live[k].pc == st.live[k].pc)
      && (forall k :: k in after.live && IsOrdering(after.live[k].pc) ==>
        k in st.live && st.live[k].pc == after.live[k].pc)
  {
    QueueDoesNoWork(st, op, id, ReadPaidState);
  }

  /** Another state of the payment stage, in which whoever is busy with an order was so before. */
  lemma OnceWithPay(s: Sys, st: Stage<PayWork>)
    requires Once(s) && Locked(s.(pay := st, nextId := s.nextId + 1))
    requires forall k :: k in s.pay.live && Recording(s.pay.live[k].pc) ==>
      k in st.live && st.live[k].pc == s.pay.live[k].pc
    requires forall k :: k in st.live && IsOrdering(st.live[k].pc) ==>
      k in s.pay.live && s.pay.live[k].pc == st.live[k].pc
    ensures Once(s.(pay := st, nextId := s.nextId + 1))
  {
    OnceFrame(s, s.(pay := st, nextId := s.nextId + 1));
  }

  lemma PayQueueOnce(s: Sys, op: QueueOp)
    requires Once(s) && QueueEnabled(s.pay, op)
    requires LocksHold(s, PayQueue(op)) && OrdersRecorded(s, PayQueue(op))
    ensures Once(s.(pay := QueueApply(s.pay, op, s.nextId, ReadPaidState), nextId := s.nextId + 1))
  {
    PayQueueLocked(s, op);
    OrdersGoOn(s.pay, op, s.nextId);
    OnceWithPay(s, QueueApply(s.pay, op, s.nextId, ReadPaidState));
  }

  lemma PayQueueLocked(s: Sys, op: QueueOp)
    requires Locked(s) && QueueEnabled(s.pay, op) && LocksHold(s, PayQueue(op))
    ensures Locked(s.(pay := QueueApply(s.pay, op, s.nextId, ReadPaidState), nextId := s.nextId + 1))
  {
    StepLocked(s, PayQueue(op));
  }

  lemma OtherStepOnce(s: Sys, step: Step)
    requires Once(s) && Enabled(s, step) && LocksHold(s, step) && !step.PayDo? && !step.PayQueue?
    ensures Once(Apply(s, step))
  {
    var t := Apply(s, step);
    StepLocked(s, step);
    if Settled(s) {
      SettledStays(s, step);
    }
    forall h | h in s.pay.live && IsOrdering(s.pay.live[h].pc)
      ensures t.job.Some? && (t.job.value.paid ==> t.job.value.status != Processing)
    {
      PaidWhileOrdering(s, step, h);
    }
    PayHandlersUntouched(s, step);
    OnceFrame(s, t);
  }

  lemma PayHandlersUntouched(s: Sys, step: Step)
    requires Enabled(s, step) && !step.PayDo? && !step.PayQueue?
    ensures Apply(s, step).pay.live == s.pay.live && Apply(s, step).orderCalls == s.orderCalls
  {
  }

  /** What a payment-worker has read when it goes on, and when it stops. */
  lemma ReadDecides(job: Option<Job>, fee: int)
    ensures Critical(AfterPayRead(job, fee)) && !Recording(AfterPayRead(job, fee))
    ensures AfterPayRead(job, fee).Working? ==>
      job.Some? && !Blank(job.value.resultKey) && (job.value.status == Processing || job.value.status
        == AwaitingPayment)
    ensures IsOrdering(AfterPayRead(job, fee)) ==>
      !job.value.paid && (job.value.status == AwaitingPayment ==> Blank(job.value.codeURL))
    ensures AfterPayRead(job, fee) == Unlocking(Ack) ==> job.None? || job.value.status != Processing
    ensures AfterPayRead(job, fee) == Unlocking(Keep) ==>
      job.Some? && Blank(job.value.resultKey) && (job.value.status == Processing || job.value.status == AwaitingPayment)
  {
    if job.Some? {
      BlankIffTrimmedAway(job.value.resultKey);
    }
  }

  /** The reader moves on, by whatever decision. */
  lemma MoveOnce(s: Sys, h: nat, pc: Pc<PayWork>)
    requires Once(s) && h in s.pay.live && s.pay.live[h].pc == Working(ReadPaidState)
    requires Critical(pc) && !Recording(pc) && Justified(pc, s)
    requires IsOrdering(pc) ==> s.job.Some? && !s.job.value.paid && s.job.value.resultKey != "" && !Settled(s)
    ensures Once(s.(pay := Moved(s.pay, h, pc)))
  {
    var t := s.(pay := Moved(s.pay, h, pc));
    FrameSafe(s, t);
    // whoever records an order holds the lock, and so does the reader
    assert forall k :: k in s.pay.live && Recording(s.pay.live[k].pc) ==> k == h;
  }

  lemma ReadOkOnce(s: Sys, h: nat, fee: int)
    requires Once(s) && PayEnabled(s, h, PayReadOk(fee))
    ensures Once(s.(pay := Moved(s.pay, h, AfterPayRead(s.job, fee))))
  {
    PayReadSafe(s, fee);
    KeyNotBlank(s);
    ReadDecides(s.job, fee);
    MoveOnce(s, h, AfterPayRead(s.job, fee));
  }

  lemma ReadOnce(s: Sys, h: nat, act: PayAct)
    requires Once(s) && PayEnabled(s, h, act) && (act.PayReadOk? || act.PayReadFails?)
    ensures Once(PayApply(s, h, act))
  {
    match act
    case PayReadOk(fee) => ReadOkOnce(s, h, fee);
    case PayReadFails => MoveOnce(s, h, Unlocking(Keep));
  }

  lemma PlaceOnce(s: Sys, h: nat, act: PayAct)
    requires Once(s) && PayEnabled(s, h, act) && (act.OrderOk? || act.OrderFails?)
    ensures Once(PayApply(s, h, act))
  {
    PayStepLocked(s, h, act);
    assert Recording(PayApply(s, h, act).pay.live[h].pc);
  }

  lemma WriteOnce(s: Sys, h: nat, act: PayAct)
    requires Once(s) && PayEnabled(s, h, act) && act.PayWrite?
    requires Recording(s.pay.live[h].pc) ==> act.effect
    ensures Once(PayApply(s, h, act))
  {
    PayStepLocked(s, h, act);
    assert SafePayWork(s.pay.live[h].pc.w, s);
    if Settled(s) {
      SettledStays(s, PayDo(h, act));
    }
  }

  lemma PayStepOnce(s: Sys, h: nat, act: PayAct)
    requires Once(s) && PayEnabled(s, h, act) && OrdersRecorded(s, PayDo(h, act))
    ensures Once(PayApply(s, h, act))
  {
    match act
    case PayWrite(_, _, _) => WriteOnce(s, h, act);
    case OrderOk(_) => PlaceOnce(s, h, act);
    case OrderFails(_) => PlaceOnce(s, h, act);
    case _ => ReadOnce(s, h, act);
  }

  lemma StepOnce(s: Sys, step: Step)
    requires Once(s) && Enabled(s, step) && LocksHold(s, step) && OrdersRecorded(s, step)
    ensures Once(Apply(s, step))
  {
    match step
    case PayDo(h, act) => PayStepOnce(s, h, act);
    case PayQueue(op) => PayQueueOnce(s, op);
    case _ => OtherStepOnce(s, step);
  }

  lemma InitIsOnce(s: Sys)
    requires Init(s)
    ensures Once(s)
  {
  }

  lemma {:induction false} RunOnce(s: Sys, steps: seq<Step>, t: Sys, env: (Sys, Step) -> bool)
    requires Once(s) && Run(s, steps, t, env)
    requires forall x, step :: env(x, step) ==> LocksHold(x, step) && OrdersRecorded(x, step)
    ensures Once(t)
    decreases |steps|
  {
    if steps != [] {
      StepOnce(s, steps[0]);
      RunOnce(Apply(s, steps[0]), steps[1..], t, env);
    }
  }

  /** One order per job: over a whole run with any redelivery, cancellation, payment, crash elsewhere
      and lost call elsewhere, CreateNativeOrder is called at most once. */
  lemma OneOrderPerJob(s: Sys, steps: seq<Step>, t: Sys, env: (Sys, Step) -> bool)
    requires Init(s) && Run(s, steps, t, env)
    requires forall x, step :: env(x, step) ==> LocksHold(x, step) && OrdersRecorded(x, step)
    ensures t.orderCalls <= 1
  {
    InitIsOnce(s);
    RunOnce(s, steps, t, env);
  }
}
