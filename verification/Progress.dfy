/** No job is stranded: in runs without faults, however often entries are delivered again or
    claimed again, a drained pipeline has brought its job to an end. */
module Progress {
  import opened Text
  import opened Domain
  import opened JobUpdates
  import opened Pipeline
  import opened Safety
  import opened Exclusion
  import opened Finality

  /** Whatever else goes wrong, the job gets its record, and a result that was built gets into it. */
  predicate Lossless(s: Sys, step: Step) {
    && Orderly(s, step)
    && match step
       case Api(a) => (a.Create? ==> a.ok) && (a.ApiCrash? ==> !s.api.Creating?)
       case CmpDo(h, act) => act.Write? && Persisting(s, h) ==> act.effect || !NeedsResult(s)
       case _ => true
  }

  predicate Persisting(s: Sys, h: nat) {
    h in s.cmp.live && s.cmp.live[h].pc == Working(Persist)
  }

  predicate QueueWorks<W>(st: Stage<W>, op: QueueOp) {
    match op
    case AcquireFails(_, _) => false
    case Unlock(_, applied) => applied
    case Finish(_, applied) => applied
    case Crash(_) => false
    case Panic(_) => false
    case Lapse => !OwnerBusy(st)
    case _ => true
  }

  /** Nobody crashes, and store, queue and lock calls succeed.  Building the comparison and placing
      the order may still fail, and deliveries may be repeated at will. */
  predicate FaultFree(s: Sys, step: Step) {
    match step
    case CmpQueue(op) => QueueWorks(s.cmp, op)
    case PayQueue(op) => QueueWorks(s.pay, op)
    case CmpDo(_, act) => !act.ReadFails? && !act.EnqueueFails? && (act.Write? ==> act.effect)
    case PayDo(_, act) => !act.PayReadFails? && (act.PayWrite? ==> act.effect)
    case Api(a) => !a.ApiCrash? && (a.Create? ==> a.ok) && (a.EnqueueJob? ==> a.ok) && (a.RecordFailure? ==> a.effect)
    case Request(r) => (r.CancelWrite? ==> r.effect) && (r.NotifyWrite? ==> r.effect)
  }

  lemma FaultFreeIsLossless(s: Sys, step: Step)
    requires FaultFree(s, step)
    ensures Lossless(s, step)
  {
  }

  // ----- Who is responsible for the job's next move -----

  predicate NeedsResult(s: Sys) {
    s.job.Some? && s.job.value.status == Processing && s.job.value.resultKey == ""
  }

  predicate NeedsGate(s: Sys) {
    s.job.Some? && s.job.value.status == Processing && s.job.value.resultKey != ""
  }

  predicate HandingOff(pc: Pc<CompareWork>) {
    pc.Working? && (pc.w.ReadAgain? || pc.w.HandOff?)
  }

  /** The key is there, or the job has ended without one. */
  predicate ResultOrEnd(s: Sys) {
    s.job.Some? && (s.job.value.resultKey != "" || s.job.value.status == Cancelled || s.job.value.status == Failed)
  }

  /** A payment that arrives while an order is placed releases the job. */
  predicate OrderStands(s: Sys) {
    s.job.Some? && (s.job.value.paid ==> s.job.value.status != Processing)
  }

  /** What a worker has achieved when it gets this far. */
  predicate CompareEarned(pc: Pc<CompareWork>, s: Sys) {
    HandingOff(pc) ==> ResultOrEnd(s)
  }

  predicate PayEarned(pc: Pc<PayWork>, s: Sys) {
    IsOrdering(pc) ==> OrderStands(s)
  }

  predicate Sound(s: Sys) {
    && Clean(s)
    && (!s.api.Creating? ==> s.job.Some?)
    && (!Idle(s.pay) ==> ResultOrEnd(s))
    && (forall h :: h in s.cmp.live ==> CompareEarned(s.cmp.live[h].pc, s))
    && (forall h :: h in s.pay.live ==> PayEarned(s.pay.live[h].pc, s))
  }

  /** What the record has reached it keeps. */
  predicate Keeps(s: Sys, t: Sys) {
    && (ResultOrEnd(s) ==> ResultOrEnd(t))
    && (s.job.Some? && !NeedsResult(s) ==> t.job.Some? && !NeedsResult(t))
    && (s.job.Some? && s.job.value.status != Processing ==> t.job.Some? && t.job.value.status != Processing)
  }

  lemma Milestones(s: Sys, step: Step)
    requires Clean(s) && Enabled(s, step) && Orderly(s, step)
    ensures Keeps(s, Apply(s, step))
  {
    StepSafe(s, step);
    StepOnward(s, step);
  }

  // ----- Whom a step moves -----

  lemma CompareMovesOnly(s: Sys, h: nat, act: CompareAct)
    requires CompareEnabled(s, h, act)
    ensures var t := CompareApply(s, h, act);
      && t.api == s.api && h in t.cmp.live && t.cmp == Moved(s.cmp, h, t.cmp.live[h].pc)
      && Critical(t.cmp.live[h].pc) && t.cmp.live[h].pc != Working(ReadJob)
      && (t.nextId == s.nextId || t.nextId == s.nextId + 1)
      && (t.pay == s.pay || (t.pay == Enqueued(s.pay, s.nextId) && t.nextId == s.nextId + 1))
  {
  }

  lemma PayMovesOnly(s: Sys, h: nat, act: PayAct)
    requires PayEnabled(s, h, act)
    ensures var t := PayApply(s, h, act);
      && t.cmp == s.cmp && t.api == s.api && t.nextId == s.nextId
      && h in t.pay.live && t.pay == Moved(s.pay, h, t.pay.live[h].pc) && Critical(t.pay.live[h].pc)
  {
    if act.PayReadOk? {
      ReadDecides(s.job, act.fee);
    }
  }

  lemma RequestMovesOnly(s: Sys, r: RequestAct)
    requires RequestEnabled(s, r)
    ensures var t := RequestApply(s, r);
      t.cmp == s.cmp && t.pay == s.pay && t.api == s.api && (t.nextId == s.nextId || t.nextId == s.nextId + 1)
  {
  }

  /** What is left to show of a step: the handlers that moved. */
  lemma SoundFrame(s: Sys, t: Sys)
    requires Sound(s) && Clean(t) && Keeps(s, t)
    requires !t.api.Creating? ==> t.job.Some?
    requires !Idle(t.pay) ==> ResultOrEnd(t)
    requires forall k :: k in t.cmp.live ==>
      (k in s.cmp.live && t.cmp.live[k].pc == s.cmp.live[k].pc) || CompareEarned(t.cmp.live[k].pc, t)
    requires forall k :: k in t.pay.live ==>
      || (k in s.pay.live && t.pay.live[k].pc == s.pay.live[k].pc && (IsOrdering(t.pay.live[k].pc) ==> OrderStands(t)))
      || PayEarned(t.pay.live[k].pc, t)
    ensures Sound(t)
  {
    forall k | k in t.cmp.live
      ensures CompareEarned(t.cmp.live[k].pc, t)
    {
      if k in s.cmp.live && t.cmp.live[k].pc == s.cmp.live[k].pc {
        assert CompareEarned(s.cmp.live[k].pc, s);
        assert s.job.Some?;
      }
    }
    forall k | k in t.pay.live
      ensures PayEarned(t.pay.live[k].pc, t)
    {
      if k in s.pay.live && t.pay.live[k].pc == s.pay.live[k].pc {
        assert PayEarned(s.pay.live[k].pc, s);
      }
    }
  }

  lemma OrderStandsStays(s: Sys, step: Step, h: nat)
    requires Sound(s) && Enabled(s, step) && Lossless(s, step)
    requires h in s.pay.live && IsOrdering(s.pay.live[h].pc) && !step.PayDo?
    ensures OrderStands(Apply(s, step))
  {
    KeyNotBlank(s);
    ActorsSeeTheResult(s);
    StepSafe(s, step);
    assert PayEarned(s.pay.live[h].pc, s) && Advancing(s.pay.live[h].pc);
  }

  lemma OrdersStand(s: Sys, step: Step)
    requires Sound(s) && Enabled(s, step) && Lossless(s, step) && !step.PayDo?
    ensures forall h :: h in s.pay.live && IsOrdering(s.pay.live[h].pc) ==> OrderStands(Apply(s, step))
  {
    forall h | h in s.pay.live && IsOrdering(s.pay.live[h].pc)
      ensures OrderStands(Apply(s, step))
    {
      OrderStandsStays(s, step, h);
    }
  }

  lemma CompareReadEarns(s: Sys, h: nat, ossEnabled: bool)
    requires Sound(s) && CompareEnabled(s, h, ReadOk(ossEnabled))
    ensures var t := CompareApply(s, h, ReadOk(ossEnabled)); CompareEarned(t.cmp.live[h].pc, t)
  {
    KeyNotBlank(s);
    assert CompareEarned(s.cmp.live[h].pc, s);
  }

  lemma CompareActEarns(s: Sys, h: nat, act: CompareAct)
    requires Sound(s) && CompareEnabled(s, h, act) && Lossless(s, CmpDo(h, act)) && !act.ReadOk?
    ensures var t := CompareApply(s, h, act); CompareEarned(t.cmp.live[h].pc, t)
  {
    assert CompareEarned(s.cmp.live[h].pc, s);
    if act.Write? {
      KeyNotBlank(s);
      assert IsOwing(s.cmp.live[h].pc);
    }
  }

  lemma CompareSound(s: Sys, h: nat, act: CompareAct)
    requires Sound(s) && CompareEnabled(s, h, act) && Lossless(s, CmpDo(h, act))
    ensures Sound(CompareApply(s, h, act))
  {
    var t := CompareApply(s, h, act);
    CompareStepClean(s, h, act);
    Milestones(s, CmpDo(h, act));
    OrdersStand(s, CmpDo(h, act));
    if act.ReadOk? {
      CompareReadEarns(s, h, act.ossEnabled);
    } else {
      CompareActEarns(s, h, act);
    }
    EnqueuesWithResult(s, h, act);
    CompareMovesOnly(s, h, act);
    CompareFrame(s, h, t);
  }

  /** The payment gate gets an entry only once the result is there. */
  lemma EnqueuesWithResult(s: Sys, h: nat, act: CompareAct)
    requires Sound(s) && CompareEnabled(s, h, act)
    ensures CompareApply(s, h, act).pay != s.pay ==> ResultOrEnd(s)
  {
    assert CompareEarned(s.cmp.live[h].pc, s);
  }

  lemma CompareFrame(s: Sys, h: nat, t: Sys)
    requires Sound(s) && Clean(t) && Keeps(s, t) && h in t.cmp.live && CompareEarned(t.cmp.live[h].pc, t)
    requires h in s.cmp.live && t.cmp == Moved(s.cmp, h, t.cmp.live[h].pc) && t.api == s.api
    requires s.job.Some? ==> t.job.Some?
    requires t.pay.live == s.pay.live && (t.pay != s.pay ==> ResultOrEnd(s))
    requires forall k :: k in s.pay.live && IsOrdering(s.pay.live[k].pc) ==> OrderStands(t)
    ensures Sound(t)
  {
    SoundFrame(s, t);
  }

  lemma PayReadEarns(s: Sys, h: nat, fee: int)
    requires Sound(s) && PayEnabled(s, h, PayReadOk(fee))
    ensures PayEarned(AfterPayRead(s.job, fee), s) && AfterPayRead(s.job, fee) != Unlocking(Keep)
  {
    ReadDecides(s.job, fee);
    KeyNotBlank(s);
    assert s.pay.live != map[];
  }

  lemma PayActEarns(s: Sys, h: nat, act: PayAct)
    requires Sound(s) && PayEnabled(s, h, act) && !act.PayReadOk?
    ensures PayEarned(PayApply(s, h, act).pay.live[h].pc, PayApply(s, h, act))
  {
    assert PayEarned(s.pay.live[h].pc, s);
  }

  lemma PaySound(s: Sys, h: nat, act: PayAct)
    requires Sound(s) && PayEnabled(s, h, act) && Lossless(s, PayDo(h, act))
    ensures Sound(PayApply(s, h, act))
  {
    PayStepClean(s, h, act);
    Milestones(s, PayDo(h, act));
    if act.PayReadOk? {
      PayReadEarns(s, h, act.fee);
    } else {
      PayActEarns(s, h, act);
    }
    PayFrame(s, h, PayApply(s, h, act));
  }

  /** The worker that acts is alone in its critical section: nobody else is busy with an order. */
  lemma PayFrame(s: Sys, h: nat, t: Sys)
    requires Sound(s) && h in s.pay.live && s.pay.live[h].pc.Working? && Clean(t) && Keeps(s, t)
    requires h in t.pay.live && PayEarned(t.pay.live[h].pc, t)
    requires t == s.(pay := Moved(s.pay, h, t.pay.live[h].pc), job := t.job, orders := t.orders,
                     orderCalls := t.orderCalls, codeStored := t.codeStored)
    ensures Sound(t)
  {
    assert s.pay.live != map[];
    assert forall k :: k in s.pay.live && k != h ==> !Critical(s.pay.live[k].pc);
    SoundFrame(s, t);
  }

  lemma CompareQueueSound(s: Sys, op: QueueOp)
    requires Sound(s) && QueueEnabled(s.cmp, op) && LocksHold(s, CmpQueue(op))
    ensures Sound(s.(cmp := QueueApply(s.cmp, op, s.nextId, ReadJob), nextId := s.nextId + 1))
  {
    CompareQueueClean(s, op);
    QueueDoesNoWork(s.cmp, op, s.nextId, ReadJob);
    SoundFrame(s, s.(cmp := QueueApply(s.cmp, op, s.nextId, ReadJob), nextId := s.nextId + 1));
  }

  lemma PayQueueSound(s: Sys, op: QueueOp)
    requires Sound(s) && QueueEnabled(s.pay, op) && LocksHold(s, PayQueue(op))
    ensures Sound(s.(pay := QueueApply(s.pay, op, s.nextId, ReadPaidState), nextId := s.nextId + 1))
  {
    PayQueueClean(s, op);
    QueueDoesNoWork(s.pay, op, s.nextId, ReadPaidState);
    if Idle(s.pay) {
      IdleOnlyLapses(s.pay, op, s.nextId, ReadPaidState);
    }
    SoundFrame(s, s.(pay := QueueApply(s.pay, op, s.nextId, ReadPaidState), nextId := s.nextId + 1));
  }

  lemma RequestSound(s: Sys, r: RequestAct)
    requires Sound(s) && RequestEnabled(s, r) && Lossless(s, Request(r))
    ensures Sound(RequestApply(s, r))
  {
    var t := RequestApply(s, r);
    RequestStepClean(s, r);
    Milestones(s, Request(r));
    OrdersStand(s, Request(r));
    assert t.cmp == s.cmp && t.pay == s.pay && t.api == s.api;
    SoundFrame(s, t);
  }

  lemma StepSound(s: Sys, step: Step)
    requires Sound(s) && Enabled(s, step) && Lossless(s, step)
    ensures Sound(Apply(s, step))
  {
    match step
    case CmpDo(h, act) => CompareSound(s, h, act);
    case PayDo(h, act) => PaySound(s, h, act);
    case CmpQueue(op) => CompareQueueSound(s, op);
    case PayQueue(op) => PayQueueSound(s, op);
    case Api(a) => ApiStepClean(s, a);
    case Request(r) => RequestSound(s, r);
  }

  // ----- Runs without faults -----

  predicate OnResult(pc: Pc<CompareWork>) {
    pc.Acquiring? || (pc.Working? && !HandingOff(pc))
  }

  predicate OnGate(pc: Pc<PayWork>) {
    pc.Acquiring? || pc.Working?
  }

  predicate ResultCovered(s: Sys) {
    s.cmp.unread != {} || exists h :: h in s.cmp.live && OnResult(s.cmp.live[h].pc)
  }

  predicate GateCovered(s: Sys) {
    || s.pay.unread != {}
    || (exists h :: h in s.cmp.live && HandingOff(s.cmp.live[h].pc))
    || (exists h :: h in s.pay.live && OnGate(s.pay.live[h].pc))
  }

  predicate Covered(s: Sys) {
    && (s.api.ApiDone? && NeedsResult(s) ==> ResultCovered(s))
    && (NeedsGate(s) ==> GateCovered(s))
  }

  /** Locks belong to live handlers, and no handler leaves its entry unacknowledged. */
  predicate Tidy<W>(st: Stage<W>) {
    && (st.lock.Some? ==> OwnerBusy(st))
    && (forall h :: h in st.live && st.live[h].pc.Unlocking? ==> st.live[h].pc.out == Ack)
    && (forall h :: h in st.live && st.live[h].pc.Returned? ==> st.live[h].pc.out == Ack)
  }

  /** Whoever is about to return with an acknowledgement has found the job's need met. */
  predicate AcksEarned(s: Sys) {
    && (forall h :: h in s.cmp.live && s.cmp.live[h].pc == Unlocking(Ack) ==> !NeedsResult(s))
    && (forall h :: h in s.pay.live && s.pay.live[h].pc == Unlocking(Ack) ==>
      s.job.Some? && s.job.value.status != Processing)
  }

  predicate Steady(s: Sys) {
    Sound(s) && Tidy(s.cmp) && Tidy(s.pay) && AcksEarned(s) && !s.api.Failing?
  }

  lemma QueueKeepsTidy<W>(st: Stage<W>, op: QueueOp, id: nat, first: W)
    requires QueueEnabled(st, op) && QueueWorks(st, op) && Tidy(st) && Exclusive(st) && Numbered(st, id)
    ensures Tidy(QueueApply(st, op, id, first))
  {
  }

  lemma MovesTidy<W>(st: Stage<W>, h: nat, pc: Pc<W>)
    requires Tidy(st) && h in st.live && Critical(st.live[h].pc) && Critical(pc) && pc != Unlocking(Keep)
    ensures Tidy(Moved(st, h, pc))
  {
  }

  lemma CompareStaysTidy(s: Sys, h: nat, act: CompareAct)
    requires Steady(s) && CompareEnabled(s, h, act) && FaultFree(s, CmpDo(h, act))
    ensures Tidy(CompareApply(s, h, act).cmp) && Tidy(CompareApply(s, h, act).pay)
  {
    if act.ReadOk? {
      ReadOwes(s.job, act.ossEnabled);
    }
    MovesTidy(s.cmp, h, CompareApply(s, h, act).cmp.live[h].pc);
  }

  lemma PayStaysTidy(s: Sys, h: nat, act: PayAct)
    requires Steady(s) && PayEnabled(s, h, act) && FaultFree(s, PayDo(h, act))
    ensures Tidy(PayApply(s, h, act).pay)
  {
    if act.PayReadOk? {
      PayReadEarns(s, h, act.fee);
      ReadDecides(s.job, act.fee);
    }
    MovesTidy(s.pay, h, PayApply(s, h, act).pay.live[h].pc);
  }

  lemma CompareAckEarned(s: Sys, h: nat, act: CompareAct)
    requires Sound(s) && CompareEnabled(s, h, act) && FaultFree(s, CmpDo(h, act))
    ensures CompareApply(s, h, act).cmp.live[h].pc == Unlocking(Ack) ==> !NeedsResult(CompareApply(s, h, act))
  {
    KeyNotBlank(s);
    assert CompareEarned(s.cmp.live[h].pc, s);
  }

  lemma PayAckEarned(s: Sys, h: nat, act: PayAct)
    requires Sound(s) && PayEnabled(s, h, act) && FaultFree(s, PayDo(h, act))
    ensures var t := PayApply(s, h, act);
      t.pay.live[h].pc == Unlocking(Ack) ==> t.job.Some? && t.job.value.status != Processing
  {
    assert PayEarned(s.pay.live[h].pc, s);
    if act.PayReadOk? {
      PayReadEarns(s, h, act.fee);
      ReadDecides(s.job, act.fee);
    } else if act.PayWrite? {
      assert SafePayWork(s.pay.live[h].pc.w, s);
    }
  }

  /** The handlers that are about to return were so before, but for the one that acts. */
  lemma AcksStayEarned(s: Sys, t: Sys)
    requires AcksEarned(s) && Keeps(s, t) && (s.cmp.live != map[] ==> s.job.Some?)
    requires forall k :: k in t.cmp.live && t.cmp.live[k].pc == Unlocking(Ack) ==>
      (k in s.cmp.live && s.cmp.live[k].pc == Unlocking(Ack)) || !NeedsResult(t)
    requires forall k :: k in t.pay.live && t.pay.live[k].pc == Unlocking(Ack) ==>
      || (k in s.pay.live && s.pay.live[k].pc == Unlocking(Ack))
      || (t.job.Some? && t.job.value.status != Processing)
    ensures AcksEarned(t)
  {
  }

  lemma CompareStepSteady(s: Sys, h: nat, act: CompareAct)
    requires Steady(s) && CompareEnabled(s, h, act) && FaultFree(s, CmpDo(h, act))
    ensures Steady(CompareApply(s, h, act))
  {
    CompareSound(s, h, act);
    CompareStaysTidy(s, h, act);
    CompareMovesOnly(s, h, act);
    CompareAckEarned(s, h, act);
    Milestones(s, CmpDo(h, act));
    AcksStayEarned(s, CompareApply(s, h, act));
  }

  lemma PayStepSteady(s: Sys, h: nat, act: PayAct)
    requires Steady(s) && PayEnabled(s, h, act) && FaultFree(s, PayDo(h, act))
    ensures Steady(PayApply(s, h, act))
  {
    PaySound(s, h, act);
    PayStaysTidy(s, h, act);
    PayMovesOnly(s, h, act);
    PayAckEarned(s, h, act);
    Milestones(s, PayDo(h, act));
    SteadyWithPay(s, h, PayApply(s, h, act));
  }

  lemma SteadyWithPay(s: Sys, h: nat, t: Sys)
    requires Steady(s) && Sound(t) && Tidy(t.pay) && Keeps(s, t) && t.cmp == s.cmp && t.api == s.api
    requires h in s.pay.live && h in t.pay.live && t.pay == Moved(s.pay, h, t.pay.live[h].pc)
    requires t.pay.live[h].pc == Unlocking(Ack) ==> t.job.Some? && t.job.value.status != Processing
    ensures Steady(t)
  {
    AcksStayEarned(s, t);
  }

  /** Only a panic sends a handler to its release without having worked. */
  lemma QueueEarnsNoAck<W>(st: Stage<W>, op: QueueOp, id: nat, first: W)
    requires QueueEnabled(st, op) && QueueWorks(st, op)
    ensures var after := QueueApply(st, op, id, first);
      forall k :: k in after.live && after.live[k].pc == Unlocking(Ack) ==>
        k in st.live && st.live[k].pc == Unlocking(Ack)
  {
  }

  lemma QueueStepSteady(s: Sys, step: Step)
    requires Steady(s) && Enabled(s, step) && FaultFree(s, step) && (step.CmpQueue? || step.PayQueue?)
    ensures Steady(Apply(s, step))
  {
    StepSound(s, step);
    if step.CmpQueue? {
      QueueKeepsTidy(s.cmp, step.op, s.nextId, ReadJob);
      QueueEarnsNoAck(s.cmp, step.op, s.nextId, ReadJob);
    } else {
      QueueKeepsTidy(s.pay, step.op, s.nextId, ReadPaidState);
      QueueEarnsNoAck(s.pay, step.op, s.nextId, ReadPaidState);
    }
    AcksStayEarned(s, Apply(s, step));
  }

  lemma StepSteady(s: Sys, step: Step)
    requires Steady(s) && Enabled(s, step) && FaultFree(s, step)
    ensures Steady(Apply(s, step))
  {
    match step
    case CmpDo(h, act) => CompareStepSteady(s, h, act);
    case PayDo(h, act) => PayStepSteady(s, h, act);
    case CmpQueue(_) => QueueStepSteady(s, step);
    case PayQueue(_) => QueueStepSteady(s, step);
    case Api(_) => StepSound(s, step);
    case Request(r) =>
      RequestSound(s, r);
      RequestMovesOnly(s, r);
      Milestones(s, step);
      AcksStayEarned(s, Apply(s, step));
  }

  // ----- Somebody is always responsible -----

  /** A worker that ends its work has handed the job on, or found it settled. */
  lemma CompareHandsOn(s: Sys, h: nat, act: CompareAct)
    requires Sound(s) && CompareEnabled(s, h, act) && Lossless(s, CmpDo(h, act))
    requires CompareApply(s, h, act).cmp.live[h].pc == Unlocking(Ack)
    ensures NeedsGate(CompareApply(s, h, act)) ==> CompareApply(s, h, act).pay.unread != {}
  {
  }

  lemma CompareStepCovered(s: Sys, h: nat, act: CompareAct)
    requires Steady(s) && Covered(s) && CompareEnabled(s, h, act) && FaultFree(s, CmpDo(h, act))
    ensures Covered(CompareApply(s, h, act))
  {
    var t := CompareApply(s, h, act);
    CompareStepSteady(s, h, act);
    CompareMovesOnly(s, h, act);
    if t.cmp.live[h].pc == Unlocking(Ack) {
      CompareHandsOn(s, h, act);
    }
    CoveredByCompare(s, h, t);
  }

  lemma CoveredByCompare(s: Sys, h: nat, t: Sys)
    requires Steady(t) && h in t.cmp.live && Critical(t.cmp.live[h].pc) && t.cmp.live[h].pc != Working(ReadJob)
    requires t.cmp.live[h].pc == Unlocking(Ack) && NeedsGate(t) ==> t.pay.unread != {}
    ensures Covered(t)
  {
    assert CompareEarned(t.cmp.live[h].pc, t);
  }

  lemma PayStepCovered(s: Sys, h: nat, act: PayAct)
    requires Steady(s) && Covered(s) && PayEnabled(s, h, act) && FaultFree(s, PayDo(h, act))
    ensures Covered(PayApply(s, h, act))
  {
    PayStepSteady(s, h, act);
    Milestones(s, PayDo(h, act));
    PayMovesOnly(s, h, act);
    CoveredByPay(s, h, PayApply(s, h, act));
  }

  lemma CoveredByPay(s: Sys, h: nat, t: Sys)
    requires Covered(s) && Steady(t) && Keeps(s, t) && s.job.Some? && h in t.pay.live && Critical(t.pay.live[h].pc)
    requires t.cmp == s.cmp && t.api == s.api
    ensures Covered(t)
  {
    assert t.pay.live[h].pc.Working? ==> OnGate(t.pay.live[h].pc);
  }

  /** Whoever covered the job before still does, or was found to be dismissed by a holder who does. */
  lemma QueueKeepsBusy<W>(st: Stage<W>, op: QueueOp, id: nat, first: W)
    requires QueueEnabled(st, op) && QueueWorks(st, op) && Tidy(st) && Numbered(st, id)
    ensures var after := QueueApply(st, op, id, first);
      && (op.Deliver? || op.Claim? ==> id in after.live && after.live[id].pc.Acquiring?)
      && (op.Acquire? && st.lock.None? ==> op.h in after.live && after.live[op.h].pc == Working(first))
      && (op.Acquire? && st.lock.Some? ==>
        st.lock.value in after.live && after.live[st.lock.value] == st.live[st.lock.value])
      && (!op.Deliver? ==> after.unread == st.unread)
      && (forall k :: k in st.live && st.live[k].pc.Working? ==> k in after.live && after.live[k] == st.live[k])
      && (forall k :: k in st.live && st.live[k].pc.Acquiring? && !(op.Acquire? && op.h == k) ==>
           k in after.live && after.live[k] == st.live[k])
  {
  }

  /** Finding the lock held is no loss: its holder is still on the job, or has settled it. */
  lemma CompareQueueCovered(s: Sys, op: QueueOp)
    requires Steady(s) && Covered(s) && QueueEnabled(s.cmp, op) && FaultFree(s, CmpQueue(op))
    ensures Covered(s.(cmp := QueueApply(s.cmp, op, s.nextId, ReadJob), nextId := s.nextId + 1))
  {
    QueueKeepsBusy(s.cmp, op, s.nextId, ReadJob);
    var t := s.(cmp := QueueApply(s.cmp, op, s.nextId, ReadJob), nextId := s.nextId + 1);
    if op.Acquire? && s.cmp.lock.Some? {
      assert CompareEarned(s.cmp.live[s.cmp.lock.value].pc, s);
      assert NeedsResult(s) ==> OnResult(t.cmp.live[s.cmp.lock.value].pc);
    } else if op.Acquire? {
      assert OnResult(t.cmp.live[op.h].pc);
    } else if op.Deliver? || op.Claim? {
      assert OnResult(t.cmp.live[s.nextId].pc);
    }
  }

  lemma PayQueueCovered(s: Sys, op: QueueOp)
    requires Steady(s) && Covered(s) && QueueEnabled(s.pay, op) && FaultFree(s, PayQueue(op))
    ensures Covered(s.(pay := QueueApply(s.pay, op, s.nextId, ReadPaidState), nextId := s.nextId + 1))
  {
    QueueKeepsBusy(s.pay, op, s.nextId, ReadPaidState);
    var t := s.(pay := QueueApply(s.pay, op, s.nextId, ReadPaidState), nextId := s.nextId + 1);
    if op.Acquire? && s.pay.lock.Some? {
      assert PayEarned(s.pay.live[s.pay.lock.value].pc, s);
      assert NeedsGate(s) ==> OnGate(t.pay.live[s.pay.lock.value].pc);
    } else if op.Acquire? {
      assert OnGate(t.pay.live[op.h].pc);
    } else if op.Deliver? || op.Claim? {
      assert OnGate(t.pay.live[s.nextId].pc);
    }
  }

  lemma ApiCovered(s: Sys, a: ApiAct)
    requires Steady(s) && Covered(s) && ApiEnabled(s, a) && FaultFree(s, Api(a))
    ensures Covered(ApiApply(s, a))
  {
  }

  lemma RequestCovered(s: Sys, r: RequestAct)
    requires Steady(s) && Covered(s) && RequestEnabled(s, r) && FaultFree(s, Request(r))
    ensures Covered(RequestApply(s, r))
  {
    Milestones(s, Request(r));
    StepSafe(s, Request(r));
  }

  lemma StepCovered(s: Sys, step: Step)
    requires Steady(s) && Covered(s) && Enabled(s, step) && FaultFree(s, step)
    ensures Covered(Apply(s, step))
  {
    match step
    case CmpDo(h, act) => CompareStepCovered(s, h, act);
    case PayDo(h, act) => PayStepCovered(s, h, act);
    case CmpQueue(op) => CompareQueueCovered(s, op);
    case PayQueue(op) => PayQueueCovered(s, op);
    case Api(a) => ApiCovered(s, a);
    case Request(r) => RequestCovered(s, r);
  }

  lemma {:induction false} RunSteady(s: Sys, steps: seq<Step>, t: Sys)
    requires Steady(s) && Covered(s) && Run(s, steps, t, FaultFree)
    ensures Steady(t) && Covered(t)
    decreases |steps|
  {
    if steps != [] {
      StepSteady(s, steps[0]);
      StepCovered(s, steps[0]);
      RunSteady(Apply(s, steps[0]), steps[1..], t);
    }
  }

  // ----- Main results -----

  /** Both streams are read to the end and nobody is at work (entries left pending would not matter). */
  predicate Drained(s: Sys) {
    && s.api.ApiDone?
    && s.cmp.unread == {} && s.cmp.live == map[]
    && s.pay.unread == {} && s.pay.live == map[]
  }

  /** No job is stranded: when a fault-free run has drained the pipeline, the job is Ready, Failed,
      Cancelled, or awaits a payment it can be paid with; and a paid job awaits nothing. */
  lemma NoJobIsStranded(s: Sys, steps: seq<Step>, t: Sys)
    requires Init(s) && Run(s, steps, t, FaultFree) && Drained(t)
    ensures t.job.Some?
    ensures
      || t.job.value.status in {Ready, Failed, Cancelled}
      || (t.job.value.status == AwaitingPayment && !Blank(t.job.value.codeURL) && !t.job.value.paid)
    ensures t.job.value.paid ==> t.job.value.status in {Ready, Failed, Cancelled}
  {
    InitIsClean(s);
    RunSteady(s, steps, t);
  }

  /** In a fault-free run every handler ends with an acknowledgement: in particular the
      payment-worker never meets a job whose result is not there yet, and never needs a claim. */
  lemma EveryHandlerAcknowledges(s: Sys, steps: seq<Step>, t: Sys)
    requires Init(s) && Run(s, steps, t, FaultFree)
    ensures forall h :: h in t.cmp.live && (t.cmp.live[h].pc.Unlocking? || t.cmp.live[h].pc.Returned?) ==>
      t.cmp.live[h].pc.out == Ack
    ensures forall h :: h in t.pay.live && (t.pay.live[h].pc.Unlocking? || t.pay.live[h].pc.Returned?) ==>
      t.pay.live[h].pc.out == Ack
    ensures forall h, fee :: h in t.pay.live && t.pay.live[h].pc == Working(ReadPaidState) ==>
      AfterPayRead(t.job, fee) != Unlocking(Keep)
  {
    InitIsClean(s);
    RunSteady(s, steps, t);
    forall h, fee | h in t.pay.live && t.pay.live[h].pc == Working(ReadPaidState)
      ensures AfterPayRead(t.job, fee) != Unlocking(Keep)
    {
      PayReadEarns(t, h, fee);
    }
  }
}
