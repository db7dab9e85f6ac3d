/** Which statuses are final, and under which assumptions: {Cancelled, Failed} is closed under
    A1 and A3, and Ready is absorbing under A1, A2 and A3. */
module Finality {
  import opened Text
  import opened Domain
  import opened JobUpdates
  import opened Pipeline
  import opened Safety
  import opened Exclusion

  predicate Idle<W>(st: Stage<W>) {
    st.unread == {} && st.pending == {} && st.live == map[]
  }

  predicate StatusIn(s: Sys, among: set<Status>) {
    s.job.Some? && s.job.value.status in among
  }

  /** Until the upload handler is done nobody else works on the job. */
  predicate NotYetPublished(s: Sys) {
    Idle(s.cmp) && Idle(s.pay) && !s.codeStored && (s.job.Some? ==> s.job.value.resultKey == "")
  }

  /** A payment-worker that saw a result: its job has not failed meanwhile. */
  predicate Advancing(pc: Pc<PayWork>) {
    pc.Working? && !pc.w.ReadPaidState?
  }

  predicate Clean(s: Sys) {
    && Locked(s)
    && (!s.api.ApiDone? ==> NotYetPublished(s))
    && (forall h :: h in s.cmp.live && IsOwing(s.cmp.live[h].pc) ==> StatusIn(s, {Processing, Cancelled}))
    && (forall h :: h in s.pay.live && Advancing(s.pay.live[h].pc) ==>
      StatusIn(s, {Processing, AwaitingPayment, Ready, Cancelled}))
  }

  /** The assumptions A1 and A3. */
  predicate Orderly(s: Sys, step: Step) {
    LocksHold(s, step) && EnqueueErrorsAreClean(s, step)
  }

  /** A worker that acts on the record has seen it in this state (Owing: no result, Advancing: one). */
  lemma ActorsSeeTheResult(s: Sys)
    requires Locked(s)
    ensures forall h :: h in s.cmp.live && IsOwing(s.cmp.live[h].pc) ==> s.job.Some? && s.job.value.resultKey == ""
    ensures forall h :: h in s.pay.live && Advancing(s.pay.live[h].pc) ==>
      s.job.Some? && s.job.value.resultKey == s.objectKey
  {
    forall h | h in s.pay.live && Advancing(s.pay.live[h].pc)
      ensures s.job.Some? && s.job.value.resultKey == s.objectKey
    {
      assert SafePayWork(s.pay.live[h].pc.w, s);
    }
  }

  lemma CompareStepClean(s: Sys, h: nat, act: CompareAct)
    requires Clean(s) && CompareEnabled(s, h, act)
    ensures Clean(CompareApply(s, h, act))
  {
    CompareStepLocked(s, h, act);
    ActorsSeeTheResult(s);
  }

  lemma PayStepClean(s: Sys, h: nat, act: PayAct)
    requires Clean(s) && PayEnabled(s, h, act)
    ensures Clean(PayApply(s, h, act))
  {
    PayStepLocked(s, h, act);
    ActorsSeeTheResult(s);
  }

  lemma IdleOnlyLapses<W>(st: Stage<W>, op: QueueOp, id: nat, first: W)
    requires Idle(st) && QueueEnabled(st, op)
    ensures Idle(QueueApply(st, op, id, first))
  {
  }

  lemma CompareQueueClean(s: Sys, op: QueueOp)
    requires Clean(s) && QueueEnabled(s.cmp, op) && LocksHold(s, CmpQueue(op))
    ensures Clean(s.(cmp := QueueApply(s.cmp, op, s.nextId, ReadJob), nextId := s.nextId + 1))
  {
    QueueKeepsExclusion(s.cmp, op, s.nextId, ReadJob);
    QueueDoesNoWork(s.cmp, op, s.nextId, ReadJob);
    if !s.api.ApiDone? {
      IdleOnlyLapses(s.cmp, op, s.nextId, ReadJob);
    }
    CleanWithCompare(s, QueueApply(s.cmp, op, s.nextId, ReadJob));
  }

  /** Another state of the compare stage, in which nobody does work that nobody did before. */
  lemma CleanWithCompare(s: Sys, st: Stage<CompareWork>)
    requires Clean(s) && Numbered(st, s.nextId + 1) && Exclusive(st) && (!s.api.ApiDone? ==> Idle(st))
    requires forall k :: k in st.live && st.live[k].pc.Working? ==>
      (k in s.cmp.live && st.live[k].pc == s.cmp.live[k].pc) || st.live[k].pc == Working(ReadJob)
    ensures Clean(s.(cmp := st, nextId := s.nextId + 1))
  {
  }

  lemma PayQueueClean(s: Sys, op: QueueOp)
    requires Clean(s) && QueueEnabled(s.pay, op) && LocksHold(s, PayQueue(op))
    ensures Clean(s.(pay := QueueApply(s.pay, op, s.nextId, ReadPaidState), nextId := s.nextId + 1))
  {
    QueueKeepsExclusion(s.pay, op, s.nextId, ReadPaidState);
    QueueDoesNoWork(s.pay, op, s.nextId, ReadPaidState);
    if !s.api.ApiDone? {
      IdleOnlyLapses(s.pay, op, s.nextId, ReadPaidState);
    }
    CleanWithPay(s, QueueApply(s.pay, op, s.nextId, ReadPaidState));
  }

  lemma CleanWithPay(s: Sys, st: Stage<PayWork>)
    requires Clean(s) && Numbered(st, s.nextId + 1) && Exclusive(st) && (!s.api.ApiDone? ==> Idle(st))
    requires forall k :: k in st.live && st.live[k].pc.Working? ==>
      (k in s.pay.live && st.live[k].pc == s.pay.live[k].pc) || st.live[k].pc == Working(ReadPaidState)
    ensures Clean(s.(pay := st, nextId := s.nextId + 1))
  {
    var t := s.(pay := st, nextId := s.nextId + 1);
    forall k | k in st.live && st.live[k].pc.Working?
      ensures SafePayWork(st.live[k].pc.w, t)
    {
      if k in s.pay.live && st.live[k].pc == s.pay.live[k].pc {
        PayWorkLater(st.live[k].pc.w, s, t);
      }
    }
  }

  lemma ApiStepClean(s: Sys, a: ApiAct)
    requires Clean(s) && ApiEnabled(s, a) && Orderly(s, Api(a))
    ensures Clean(ApiApply(s, a))
  {
    ApiStepLocked(s, a);
  }

  lemma RequestStepClean(s: Sys, r: RequestAct)
    requires Clean(s) && RequestEnabled(s, r)
    ensures Clean(RequestApply(s, r))
  {
    RequestStepLocked(s, r);
  }

  lemma StepClean(s: Sys, step: Step)
    requires Clean(s) && Enabled(s, step) && Orderly(s, step)
    ensures Clean(Apply(s, step))
  {
    match step
    case CmpDo(h, act) => CompareStepClean(s, h, act);
    case PayDo(h, act) => PayStepClean(s, h, act);
    case CmpQueue(op) => CompareQueueClean(s, op);
    case PayQueue(op) => PayQueueClean(s, op);
    case Api(a) => ApiStepClean(s, a);
    case Request(r) => RequestStepClean(s, r);
  }

  /** A job that has left Processing, and one that is cancelled or failed, stays so. */
  predicate Onward(s: Sys, t: Sys) {
    && (s.job.Some? && s.job.value.status != Processing ==> t.job.Some? && t.job.value.status != Processing)
    && (StatusIn(s, {Cancelled, Failed}) ==> StatusIn(t, {Cancelled, Failed}))
  }

  lemma CompareOnward(s: Sys, h: nat, act: CompareAct)
    requires Clean(s) && CompareEnabled(s, h, act)
    ensures Onward(s, CompareApply(s, h, act))
  {
    ActorsSeeTheResult(s);
    KeyNotBlank(s);
    if act.Write? && s.cmp.live[h].pc.w.Reset? {
      assert IsOwing(s.cmp.live[h].pc);
    }
  }

  lemma PayOnward(s: Sys, h: nat, act: PayAct)
    requires Clean(s) && PayEnabled(s, h, act)
    ensures Onward(s, PayApply(s, h, act))
  {
    if act.PayWrite? {
      assert Advancing(s.pay.live[h].pc);
    }
  }

  lemma RequestOnward(s: Sys, r: RequestAct)
    requires Clean(s) && RequestEnabled(s, r)
    ensures Onward(s, RequestApply(s, r))
  {
    KeyNotBlank(s);
  }

  /** Under A1 and A3 nothing leads back to Processing, and nothing from Cancelled or Failed elsewhere. */
  lemma StepOnward(s: Sys, step: Step)
    requires Clean(s) && Enabled(s, step) && Orderly(s, step)
    ensures Onward(s, Apply(s, step))
  {
    match step
    case CmpDo(h, act) => CompareOnward(s, h, act);
    case PayDo(h, act) => PayOnward(s, h, act);
    case Request(r) => RequestOnward(s, r);
    case _ =>
  }

  lemma {:induction false} RunClean(s: Sys, steps: seq<Step>, t: Sys, env: (Sys, Step) -> bool)
    requires Clean(s) && Run(s, steps, t, env)
    requires forall x, step :: env(x, step) ==> Orderly(x, step)
    ensures Clean(t)
    ensures StatusIn(s, {Cancelled, Failed}) ==> StatusIn(t, {Cancelled, Failed})
    decreases |steps|
  {
    if steps != [] {
      StepClean(s, steps[0]);
      StepOnward(s, steps[0]);
      RunClean(Apply(s, steps[0]), steps[1..], t, env);
    }
  }

  lemma InitIsClean(s: Sys)
    requires Init(s)
    ensures Clean(s) && Quoted(s)
  {
  }

  /** A cancelled or failed job is never released: under A1 and A3 no run leads from Cancelled or
      Failed to Processing, AwaitingPayment or Ready. */
  lemma CancelledOrFailedIsFinal(s: Sys, before: seq<Step>, t: Sys, after: seq<Step>, u: Sys)
    requires Init(s) && Run(s, before, t, Orderly) && Run(t, after, u, Orderly)
    requires StatusIn(t, {Cancelled, Failed})
    ensures StatusIn(u, {Cancelled, Failed})
  {
    InitIsClean(s);
    RunClean(s, before, t, Orderly);
    RunClean(t, after, u, Orderly);
  }

  /** The step is one of the three `fail` updates, and it takes effect. */
  predicate Fails(s: Sys, step: Step) {
    match step
    case Api(RecordFailure(effect)) => effect
    case CmpDo(h, Write(effect)) =>
      effect && h in s.cmp.live && s.cmp.live[h].pc.Working? && s.cmp.live[h].pc.w.GiveUp?
    case PayDo(h, PayWrite(effect, _, _)) =>
      effect && h in s.pay.live && s.pay.live[h].pc.Working? && s.pay.live[h].pc.w.Reject?
    case _ => false
  }

  lemma WorkerCancelledIff(s: Sys, step: Step)
    requires StatusIn(s, {Cancelled}) && Enabled(s, step) && (step.CmpDo? || step.PayDo?)
    ensures if Fails(s, step) then StatusIn(Apply(s, step), {Failed}) else StatusIn(Apply(s, step), {Cancelled})
  {
  }

  lemma OtherCancelledIff(s: Sys, step: Step)
    requires Safe(s) && StatusIn(s, {Cancelled}) && Enabled(s, step) && !step.CmpDo? && !step.PayDo?
    ensures if Fails(s, step) then StatusIn(Apply(s, step), {Failed}) else StatusIn(Apply(s, step), {Cancelled})
  {
  }

  /** Cancelled by itself is not absorbing (see Witnesses.CancelledMayFail).  Whatever the environment
      does, a cancelled job changes its status exactly when a `fail` takes effect, and then it is Failed. */
  lemma CancelledIsLeftIffFailed(s: Sys, steps: seq<Step>, t: Sys, step: Step)
    requires Init(s) && Run(s, steps, t, AnyEnvironment) && StatusIn(t, {Cancelled}) && Enabled(t, step)
    ensures !StatusIn(Apply(t, step), {Cancelled}) <==> Fails(t, step)
    ensures Fails(t, step) ==> StatusIn(Apply(t, step), {Failed})
  {
    InitIsClean(s);
    ReachableSafe(s, steps, t, AnyEnvironment);
    if step.CmpDo? || step.PayDo? {
      WorkerCancelledIff(t, step);
    } else {
      OtherCancelledIff(t, step);
    }
  }

  /** The answer "cancelled" is given whatever became of the update.  The request cancels the job exactly if
      its update takes effect on an unpaid record: then the job stays cancelled or failed over the rest of
      the run, and otherwise the request has changed nothing (see Witnesses.CancelAnswerMayBeWrong). */
  lemma CancelAnswerHoldsIff(s: Sys, before: seq<Step>, t: Sys, c: nat, now: Time, effect: bool, after: seq<Step>,
    u: Sys)
    requires Init(s) && Run(s, before, t, Orderly) && t.job.Some? && RequestEnabled(t, CancelWrite(c, now, effect))
    requires Run(RequestApply(t, CancelWrite(c, now, effect)), after, u, Orderly)
    ensures effect && !t.job.value.paid ==> StatusIn(u, {Cancelled, Failed})
    ensures !effect || t.job.value.paid ==> RequestApply(t, CancelWrite(c, now, effect)).job == t.job
    ensures StatusIn(RequestApply(t, CancelWrite(c, now, effect)), {Cancelled}) <==>
      StatusIn(t, {Cancelled}) || (effect && !t.job.value.paid)
  {
    InitIsClean(s);
    RunClean(s, before, t, Orderly);
    RequestStepClean(t, CancelWrite(c, now, effect));
    RunClean(RequestApply(t, CancelWrite(c, now, effect)), after, u, Orderly);
  }

  // ----- Ready is absorbing -----

  /** Once a code URL was stored the job is settled; a worker busy with an order works for a job
      that nobody can have paid yet. */
  predicate Quoted(s: Sys) {
    && (s.codeStored ==> Settled(s))
    && (s.notifies != {} ==> s.codeStored)
    && forall h :: h in s.pay.live && IsOrdering(s.pay.live[h].pc) ==>
      !s.codeStored && StatusIn(s, {Processing, Cancelled})
  }

  /** The assumptions A1, A2 and A3. */
  predicate Honest(s: Sys, step: Step) {
    Orderly(s, step) && PaidAfterQuote(s, step)
  }

  /** The assumptions other than A1. */
  predicate A2AndA3(s: Sys, step: Step) {
    PaidAfterQuote(s, step) && EnqueueErrorsAreClean(s, step)
  }

  /** The reader moves on, by whatever decision. */
  lemma MoveQuoted(s: Sys, h: nat, pc: Pc<PayWork>)
    requires Clean(s) && Quoted(s) && h in s.pay.live
    requires IsOrdering(pc) ==> !s.codeStored && StatusIn(s, {Processing, Cancelled})
    ensures Quoted(s.(pay := Moved(s.pay, h, pc)))
  {
  }

  lemma PayReadQuoted(s: Sys, h: nat, fee: int)
    requires Clean(s) && Quoted(s) && PayEnabled(s, h, PayReadOk(fee))
    ensures Quoted(PayApply(s, h, PayReadOk(fee)))
  {
    ReadDecides(s.job, fee);
    KeyNotBlank(s);
    MoveQuoted(s, h, AfterPayRead(s.job, fee));
  }

  lemma PayWriteQuoted(s: Sys, h: nat, act: PayAct)
    requires Clean(s) && Quoted(s) && PayEnabled(s, h, act) && act.PayWrite?
    ensures Quoted(PayApply(s, h, act))
  {
    ActorsSeeTheResult(s);
    if s.codeStored {
      SettledStays(s, PayDo(h, act));
    }
    var t := PayApply(s, h, act);
    assert forall k :: k in t.pay.live ==> !IsOrdering(t.pay.live[k].pc);
  }

  lemma PayStepQuoted(s: Sys, h: nat, act: PayAct)
    requires Clean(s) && Quoted(s) && PayEnabled(s, h, act)
    ensures Quoted(PayApply(s, h, act))
  {
    match act
    case PayReadOk(fee) => PayReadQuoted(s, h, fee);
    case PayReadFails => MoveQuoted(s, h, Unlocking(Keep));
    case PayWrite(_, _, _) => PayWriteQuoted(s, h, act);
    case OrderOk(url) =>
      MoveQuoted(s, h, Working(StoreOrder(s.pay.live[h].pc.w.key, s.pay.live[h].pc.w.fee, url)));
    case OrderFails(msg) => MoveQuoted(s, h, Working(Reject(ORDER_FAILED + msg)));
  }

  lemma CompareStepQuoted(s: Sys, h: nat, act: CompareAct)
    requires Clean(s) && Quoted(s) && CompareEnabled(s, h, act)
    ensures Quoted(CompareApply(s, h, act))
  {
    ActorsSeeTheResult(s);
    var t := CompareApply(s, h, act);
    CompareStepSafe(s, h, act);
    if s.codeStored {
      SettledStays(s, CmpDo(h, act));
    }
    // while somebody is busy with an order there is a result, so no compare-worker may write
    assert act.Write? ==> IsOwing(s.cmp.live[h].pc);
    assert t.pay.live == s.pay.live && forall k :: k in s.pay.live && IsOrdering(s.pay.live[k].pc) ==>
      Advancing(s.pay.live[k].pc);
  }

  lemma RequestStepQuoted(s: Sys, r: RequestAct)
    requires Clean(s) && Quoted(s) && RequestEnabled(s, r) && Honest(s, Request(r))
    ensures Quoted(RequestApply(s, r))
  {
    KeyNotBlank(s);
    if s.codeStored {
      SettledStays(s, Request(r));
    }
  }

  lemma QueueStepQuoted(s: Sys, step: Step)
    requires Clean(s) && Quoted(s) && Enabled(s, step) && (step.CmpQueue? || step.PayQueue?)
    ensures Quoted(Apply(s, step))
  {
    if step.PayQueue? {
      QueueDoesNoWork(s.pay, step.op, s.nextId, ReadPaidState);
    }
  }

  lemma StepQuoted(s: Sys, step: Step)
    requires Clean(s) && Quoted(s) && Enabled(s, step) && Honest(s, step)
    ensures Quoted(Apply(s, step))
  {
    match step
    case PayDo(h, act) => PayStepQuoted(s, h, act);
    case CmpDo(h, act) => CompareStepQuoted(s, h, act);
    case Request(r) => RequestStepQuoted(s, r);
    case CmpQueue(_) => QueueStepQuoted(s, step);
    case PayQueue(_) => QueueStepQuoted(s, step);
    case Api(_) =>
  }

  /** No closure of any actor moves a Ready job, although the compare reset, both fails and the
      enqueue failure of the upload handler never look at the status they overwrite. */
  lemma ReadyStep(s: Sys, step: Step)
    requires Clean(s) && Quoted(s) && Enabled(s, step) && StatusIn(s, {Ready})
    ensures StatusIn(Apply(s, step), {Ready})
  {
    ActorsSeeTheResult(s);
  }

  lemma {:induction false} RunQuoted(s: Sys, steps: seq<Step>, t: Sys)
    requires Clean(s) && Quoted(s) && Run(s, steps, t, Honest)
    ensures Clean(t) && Quoted(t)
    ensures StatusIn(s, {Ready}) ==> StatusIn(t, {Ready})
    decreases |steps|
  {
    if steps != [] {
      StepClean(s, steps[0]);
      StepQuoted(s, steps[0]);
      if StatusIn(s, {Ready}) {
        ReadyStep(s, steps[0]);
      }
      RunQuoted(Apply(s, steps[0]), steps[1..], t);
    }
  }

  /** Ready is absorbing: under A1, A2 and A3, once a job is Ready it stays Ready for ever. */
  lemma ReadyIsFinal(s: Sys, before: seq<Step>, t: Sys, after: seq<Step>, u: Sys)
    requires Init(s) && Run(s, before, t, Honest) && Run(t, after, u, Honest)
    requires StatusIn(t, {Ready})
    ensures StatusIn(u, {Ready})
  {
    InitIsClean(s);
    RunQuoted(s, before, t);
    RunQuoted(t, after, u);
  }

  // ----- What a payment buys -----

  /** A payment that was asked for finds the job awaiting it, or cancelled; one that nobody asked for does not
      exist, so a paid job without a quote was free of charge. */
  predicate Honoured(s: Sys) {
    && (s.codeStored ==> StatusIn(s, {AwaitingPayment, Ready, Cancelled}))
    && (s.job.Some? && s.job.value.paid && !s.codeStored ==> s.job.value.status == Ready)
    && (s.job.Some? && s.job.value.paid ==> StatusIn(s, {Ready, Cancelled}) && s.job.value.resultKey == s.objectKey)
  }

  lemma CompareHonours(s: Sys, h: nat, act: CompareAct)
    requires Clean(s) && Quoted(s) && Honoured(s) && CompareEnabled(s, h, act)
    ensures Honoured(CompareApply(s, h, act))
  {
    ActorsSeeTheResult(s);
    assert act.Write? ==> IsOwing(s.cmp.live[h].pc);
  }

  lemma PayHonours(s: Sys, h: nat, act: PayAct)
    requires Clean(s) && Quoted(s) && Honoured(s) && PayEnabled(s, h, act)
    ensures Honoured(PayApply(s, h, act))
  {
    assert SafePayWork(s.pay.live[h].pc.w, s);
    assert act.PayWrite? ==> Advancing(s.pay.live[h].pc);
  }

  lemma RequestHonours(s: Sys, r: RequestAct)
    requires Clean(s) && Quoted(s) && Honoured(s) && RequestEnabled(s, r) && Honest(s, Request(r))
    ensures Honoured(RequestApply(s, r))
  {
    KeyNotBlank(s);
  }

  lemma StepHonours(s: Sys, step: Step)
    requires Clean(s) && Quoted(s) && Honoured(s) && Enabled(s, step) && Honest(s, step)
    ensures Honoured(Apply(s, step))
  {
    match step
    case CmpDo(h, act) => CompareHonours(s, h, act);
    case PayDo(h, act) => PayHonours(s, h, act);
    case Request(r) => RequestHonours(s, r);
    case _ =>
  }

  lemma {:induction false} RunHonours(s: Sys, steps: seq<Step>, t: Sys)
    requires Clean(s) && Quoted(s) && Honoured(s) && Run(s, steps, t, Honest)
    ensures Honoured(t)
    decreases |steps|
  {
    if steps != [] {
      StepClean(s, steps[0]);
      StepQuoted(s, steps[0]);
      StepHonours(s, steps[0]);
      RunHonours(Apply(s, steps[0]), steps[1..], t);
    }
  }

  /** Under A1, A2 and A3 a paid job is Ready, or was cancelled, and in either case has its result; and once a
      code URL was stored the job never fails and never goes back to Processing. */
  lemma PaymentsAreHonoured(s: Sys, steps: seq<Step>, t: Sys)
    requires Init(s) && Run(s, steps, t, Honest)
    ensures t.job.Some? && t.job.value.paid ==>
      StatusIn(t, {Ready, Cancelled}) && HasResult(t.job.value) && t.job.value.resultKey == t.objectKey
    ensures t.codeStored ==> StatusIn(t, {AwaitingPayment, Ready, Cancelled})
  {
    InitIsClean(s);
    RunQuoted(s, steps, t);
    RunHonours(s, steps, t);
    KeyNotBlank(t);
  }
}
