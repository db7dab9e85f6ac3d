/** What the HTTP handlers answer from the record they read, and what the safety of the pipeline
    makes of those answers. */
module Service {
  import opened Text
  import opened Domain
  import opened JobUpdates
  import opened Pipeline
  import opened Safety
  import Amount
  import Exclusion

  datatype ExportAnswer = NotFound | Gone | PaymentRequired | Download

  /** The gate of the export download. */
  function ExportGate(job: Option<Job>): ExportAnswer {
    if job.None? then NotFound
    else if job.value.status == Cancelled then Gone
    else if !job.value.paid || job.value.status != Ready || !HasResult(job.value) then PaymentRequired
    else Download
  }

  /** The status shown to the polling client, with its defensive override. */
  function StatusView(j: Job): Status {
    if j.status == AwaitingPayment && j.paid && HasResult(j) then Ready else j.status
  }

  lemma InitIsSafe(s: Sys)
    requires Init(s)
    ensures Safe(s)
  {
  }

  /** Release requires payment and a result: in every state any run can reach, whatever expires,
      crashes or gets lost on the way, a Ready job is paid and has its result.  Hence the
      three-part download gate opens exactly for Ready jobs. */
  lemma ReadyImpliesPaid(s: Sys, steps: seq<Step>, t: Sys)
    requires Init(s) && Run(s, steps, t, AnyEnvironment) && t.job.Some?
    ensures t.job.value.paid <==> t.job.value.paidAt.Some?
    ensures t.job.value.status == Ready ==>
      t.job.value.paid && t.job.value.resultKey == s.objectKey && HasResult(t.job.value)
    ensures ExportGate(t.job) == Download <==> t.job.value.status == Ready
    ensures ExportGate(t.job) == Gone <==> t.job.value.status == Cancelled
    ensures ExportGate(t.job) == PaymentRequired <==> t.job.value.status !in {Ready, Cancelled}
  {
    InitIsSafe(s);
    ReachableSafe(s, steps, t, AnyEnvironment);
    if t.job.value.status == Ready {
      KeyNotBlank(t);
    }
  }

  /** Payments and results are write-once: what one state of a run shows, every later state shows. */
  lemma PaymentAndResultAreWriteOnce(s: Sys, before: seq<Step>, t: Sys, after: seq<Step>, u: Sys)
    requires Init(s) && Run(s, before, t, AnyEnvironment) && t.job.Some?
    requires Run(t, after, u, AnyEnvironment)
    ensures u.job.Some?
    ensures t.job.value.paid ==> u.job.value.paid && u.job.value.paidAt == t.job.value.paidAt
    ensures t.job.value.resultKey != "" ==> u.job.value.resultKey == t.job.value.resultKey
  {
    InitIsSafe(s);
    ReachableSafe(s, before, t, AnyEnvironment);
    ReachableSafe(t, after, u, AnyEnvironment);
  }

  /** Neither a cancel request nor the update that stores an order overwrites a Ready job, however
      old the read was that let them go on. */
  lemma ReadySurvivesCancelAndOrder(s: Sys, steps: seq<Step>, t: Sys, step: Step)
    requires Init(s) && Run(s, steps, t, AnyEnvironment)
    requires t.job.Some? && t.job.value.status == Ready && Enabled(t, step)
    requires
      || (step.Request? && step.r.CancelWrite?)
      || (step.PayDo? && t.pay.live[step.h].pc.w.StoreOrder?)
    ensures Apply(t, step).job == t.job
  {
    InitIsSafe(s);
    ReachableSafe(s, steps, t, AnyEnvironment);
  }

  /** Awaiting is always payable: in every reachable state an awaiting job is unpaid, has its result,
      shows a code URL, and shows that URL with the amount of an order that was really placed. */
  lemma AwaitingIsPayable(s: Sys, steps: seq<Step>, t: Sys)
    requires Init(s) && Run(s, steps, t, AnyEnvironment)
    requires t.job.Some? && t.job.value.status == AwaitingPayment
    ensures !t.job.value.paid && HasResult(t.job.value) && !Blank(t.job.value.codeURL)
    ensures exists i :: 0 <= i < |t.orders| && Quotes(t.orders[i], t.job.value)
  {
    InitIsSafe(s);
    ReachableSafe(s, steps, t, AnyEnvironment);
  }

  /** The view shows another status than the record exactly for an awaiting record that is paid and has its
      result, and then it shows Ready. */
  lemma OverrideFiresIff(j: Job)
    ensures StatusView(j) != j.status <==>
      j.status == AwaitingPayment && j.paid && (!Blank(j.resultKey) || !Blank(j.resultPath))
    ensures StatusView(j) != j.status ==> StatusView(j) == Ready
  {
  }

  /** So the override of the status view never fires, and a confirmed payment of an awaiting job
      releases it: the branch back to Processing is dead on this pipeline. */
  lemma AwaitingHasNoDetour(s: Sys, steps: seq<Step>, t: Sys, now: Time)
    requires Init(s) && Run(s, steps, t, AnyEnvironment) && t.job.Some?
    ensures StatusView(t.job.value) == t.job.value.status
    ensures t.job.value.status == AwaitingPayment ==> ConfirmPayment(t.job.value, now).status == Ready
  {
    if t.job.value.status == AwaitingPayment {
      AwaitingIsPayable(s, steps, t);
    }
  }

  /** And the amount check lets a notification through exactly when it pays such an order in full
      (for fees below 2^51 fen). */
  lemma AwaitingAmountCheck(s: Sys, steps: seq<Step>, t: Sys, total: int)
    requires Init(s) && Run(s, steps, t, AnyEnvironment)
    requires t.job.Some? && t.job.value.status == AwaitingPayment
    requires forall i :: 0 <= i < |t.orders| ==> t.orders[i].fee < Amount.TWO_TO_51
    ensures (exists product :: RequestEnabled(t, NotifyRead(total, true, product))) <==>
      exists i :: 0 <= i < |t.orders| && t.orders[i].fee == total && Quotes(t.orders[i], t.job.value)
  {
    AwaitingIsPayable(s, steps, t);
    var yuan := t.job.value.amountYuan;
    var i :| 0 <= i < |t.orders| && Quotes(t.orders[i], t.job.value);
    Amount.CheckAcceptsExactlyTheOrder(t.orders[i].fee, yuan, total);
    if k :| 0 <= k < |t.orders| && t.orders[k].fee == total && Quotes(t.orders[k], t.job.value) {
      Amount.CheckAcceptsExactlyTheOrder(t.orders[k].fee, yuan, total);
    }
    if Amount.AmountAccepted(yuan, total) {
      var product :| Amount.AcceptedAt(yuan, product, total);
      assert RequestEnabled(t, NotifyRead(total, true, product));
    }
    if product :| RequestEnabled(t, NotifyRead(total, true, product)) {
      assert Amount.AcceptedAt(yuan, product, total);
    }
  }

  /** A Ready job's amount is cleared.  So a duplicate of the notification that released it is answered like
      the first exactly if the order was for one fen; any other total is refused as a mismatch. */
  lemma ReadyAmountCheck(s: Sys, steps: seq<Step>, t: Sys, total: int)
    requires Init(s) && Run(s, steps, t, AnyEnvironment)
    requires t.job.Some? && t.job.value.status == Ready
    ensures (exists product :: RequestEnabled(t, NotifyRead(total, true, product))) <==> total == 1
  {
    InitIsSafe(s);
    ReachableSafe(s, steps, t, AnyEnvironment);
    assert Amount.AcceptedAt(0.0, 0.0, 1);
    assert RequestEnabled(t, NotifyRead(1, true, 0.0));
    forall product | RequestEnabled(t, NotifyRead(total, true, product))
      ensures total == 1
    {
      assert product == 0.0;
    }
  }

  // ----- What the user is told of a failure -----

  /** The message that a step may bring into the record as the reason of a failure. */
  function Reason(step: Step): set<string> {
    match step
    case CmpDo(_, BuildFails(msg)) => {msg}
    case PayDo(_, OrderFails(msg)) => {"创建微信支付订单失败: " + msg}
    case Api(EnqueueJob(_, _, msg)) => {"投递任务失败: " + msg}
    case _ => {}
  }

  /** The two reasons that a worker has of its own. */
  const OWN_REASONS: set<string> := {"OSS 未启用", "输入文件 OSSKey 为空"}

  /** Whoever is about to record a failure, and a record that shows one, has a reason for it. */
  predicate Explained(s: Sys, told: set<string>) {
    && OWN_REASONS <= told
    && (s.job.Some? && s.job.value.status == Failed ==> s.job.value.error in told)
    && (s.job.Some? && s.job.value.status in {Processing, AwaitingPayment, Ready} ==> s.job.value.error == "")
    && (s.api.Failing? ==> s.api.msg in told)
    && (forall h :: h in s.cmp.live ==> FailsWith(s.cmp.live[h].pc, told))
    && (forall h :: h in s.pay.live ==> RejectsWith(s.pay.live[h].pc, told))
  }

  predicate FailsWith(pc: Pc<CompareWork>, told: set<string>) {
    pc.Working? && pc.w.GiveUp? ==> pc.w.msg in told
  }

  predicate RejectsWith(pc: Pc<PayWork>, told: set<string>) {
    pc.Working? && pc.w.Reject? ==> pc.w.msg in told
  }

  lemma ReadExplained(job: Option<Job>, ossEnabled: bool, fee: int, told: set<string>)
    requires OWN_REASONS <= told
    ensures FailsWith(AfterRead(job, ossEnabled), told) && FailsWith(AfterReadAgain(job), told)
    ensures RejectsWith(AfterPayRead(job, fee), told)
  {
  }

  lemma CompareExplained(s: Sys, h: nat, act: CompareAct, told: set<string>)
    requires Explained(s, told) && CompareEnabled(s, h, act)
    ensures Explained(CompareApply(s, h, act), told + Reason(CmpDo(h, act)))
  {
    var t, later := CompareApply(s, h, act), told + Reason(CmpDo(h, act));
    if act.ReadOk? {
      ReadExplained(s.job, act.ossEnabled, 0, told);
    }
    assert FailsWith(s.cmp.live[h].pc, told) && FailsWith(t.cmp.live[h].pc, later);
  }

  lemma PayExplained(s: Sys, h: nat, act: PayAct, told: set<string>)
    requires Explained(s, told) && PayEnabled(s, h, act)
    ensures Explained(PayApply(s, h, act), told + Reason(PayDo(h, act)))
  {
    var t, later := PayApply(s, h, act), told + Reason(PayDo(h, act));
    if act.PayReadOk? {
      ReadExplained(s.job, true, act.fee, told);
    }
    assert RejectsWith(s.pay.live[h].pc, told) && RejectsWith(t.pay.live[h].pc, later);
  }

  lemma CompareQueueExplained(s: Sys, op: QueueOp, told: set<string>)
    requires Explained(s, told) && QueueEnabled(s.cmp, op)
    ensures Explained(s.(cmp := QueueApply(s.cmp, op, s.nextId, ReadJob), nextId := s.nextId + 1), told)
  {
    Exclusion.QueueDoesNoWork(s.cmp, op, s.nextId, ReadJob);
  }

  lemma PayQueueExplained(s: Sys, op: QueueOp, told: set<string>)
    requires Explained(s, told) && QueueEnabled(s.pay, op)
    ensures Explained(s.(pay := QueueApply(s.pay, op, s.nextId, ReadPaidState), nextId := s.nextId + 1), told)
  {
    Exclusion.QueueDoesNoWork(s.pay, op, s.nextId, ReadPaidState);
  }

  lemma ApiExplained(s: Sys, a: ApiAct, told: set<string>)
    requires Explained(s, told) && ApiEnabled(s, a)
    ensures Explained(ApiApply(s, a), told + Reason(Api(a)))
  {
    var t, later := ApiApply(s, a), told + Reason(Api(a));
    assert t.cmp.live == s.cmp.live && t.pay == s.pay;
  }

  lemma RequestExplained(s: Sys, r: RequestAct, told: set<string>)
    requires Explained(s, told) && RequestEnabled(s, r)
    ensures Explained(RequestApply(s, r), told)
  {
  }

  lemma StepExplained(s: Sys, step: Step, told: set<string>)
    requires Explained(s, told) && Enabled(s, step)
    ensures Explained(Apply(s, step), told + Reason(step))
  {
    match step
    case CmpDo(h, act) => CompareExplained(s, h, act, told);
    case PayDo(h, act) => PayExplained(s, h, act, told);
    case Api(a) => ApiExplained(s, a, told);
    case CmpQueue(op) =>
      assert told + {} == told;
      CompareQueueExplained(s, op, told);
    case PayQueue(op) =>
      assert told + {} == told;
      PayQueueExplained(s, op, told);
    case Request(r) =>
      assert told + {} == told;
      RequestExplained(s, r, told);
  }

  ghost function Reasons(steps: seq<Step>): set<string> {
    if steps == [] then {} else Reason(steps[0]) + Reasons(steps[1..])
  }

  lemma {:induction false} RunExplained(s: Sys, steps: seq<Step>, t: Sys, told: set<string>)
    requires Explained(s, told) && Run(s, steps, t, AnyEnvironment)
    ensures Explained(t, told + Reasons(steps))
    decreases |steps|
  {
    if steps != [] {
      StepExplained(s, steps[0], told);
      RunExplained(Apply(s, steps[0]), steps[1..], t, told + Reason(steps[0]));
      assert told + Reason(steps[0]) + Reasons(steps[1..]) == told + Reasons(steps);
    } else {
      assert told + {} == told;
    }
  }

  lemma {:induction false} ReasonsAre(steps: seq<Step>, msg: string)
    ensures msg in Reasons(steps) <==> exists i :: 0 <= i < |steps| && msg in Reason(steps[i])
  {
    if steps != [] {
      ReasonsAre(steps[1..], msg);
      assert forall i :: 0 < i < |steps| ==> steps[1..][i - 1] == steps[i];
    }
  }

  /** The error of a failed job is one that occurred: storage was off, an input was missing, or some step of the
      run brought it, an enqueue or an order call or the building of the result.  A job in progress, and a
      released one, shows none. */
  lemma FailuresAreExplained(s: Sys, steps: seq<Step>, t: Sys)
    requires Init(s) && Run(s, steps, t, AnyEnvironment) && t.job.Some?
    ensures t.job.value.status == Failed ==>
      || t.job.value.error in {"OSS 未启用", "输入文件 OSSKey 为空"}
      || exists i :: 0 <= i < |steps| && t.job.value.error in Reason(steps[i])
    ensures t.job.value.status in {Processing, AwaitingPayment, Ready} ==> t.job.value.error == ""
  {
    RunExplained(s, steps, t, OWN_REASONS);
    ReasonsAre(steps, t.job.value.error);
  }

  // ----- What the handlers put in, and when they go on -----

  /** A new job is in progress, with its two inputs, unpaid and with no result. */
  lemma CreatedJob(s: Sys, file1Key: string, file2Key: string)
    requires s.api.Creating?
    ensures var j := ApiApply(s, Create(file1Key, file2Key, true)).job;
      && j.Some? && j.value.status == Processing && j.value.file1Key == file1Key && j.value.file2Key == file2Key
      && !j.value.paid && j.value.paidAt.None? && j.value.cancelledAt.None? && !HasResult(j.value)
      && j.value.error == "" && j.value.codeURL == "" && j.value.amountYuan == 0.0
  {
  }

  /** In a reachable state a cancel request goes on to its update exactly if the job exists and is in progress
      or has failed, and is not paid; it closes the order first exactly if the job awaits payment. */
  lemma CancelGoesOnIff(s: Sys, steps: seq<Step>, t: Sys)
    requires Init(s) && Run(s, steps, t, AnyEnvironment)
    ensures RequestEnabled(t, CancelRead) <==>
      t.job.Some? && t.job.value.status in {Processing, AwaitingPayment, Failed} && !t.job.value.paid
    ensures RequestEnabled(t, CancelRead) ==>
      var after := RequestApply(t, CancelRead);
      after.cancels == t.cancels[t.nextId := if t.job.value.status == AwaitingPayment then ClosingOrder else Cancelling]
  {
    InitIsSafe(s);
    ReachableSafe(s, steps, t, AnyEnvironment);
  }

  // ----- Cancelling an awaiting job -----

  lemma OtherStepsKeepCancels(s: Sys, step: Step)
    requires Enabled(s, step) && !step.Request?
    ensures Apply(s, step).cancels == s.cancels && s.nextId <= Apply(s, step).nextId
  {
  }

  lemma {:induction false} GoneForGood(s: Sys, steps: seq<Step>, t: Sys, c: nat)
    requires Run(s, steps, t, AnyEnvironment) && c < s.nextId && c !in s.cancels
    ensures c !in t.cancels
    decreases |steps|
  {
    if steps != [] {
      if !steps[0].Request? {
        OtherStepsKeepCancels(s, steps[0]);
      }
      GoneForGood(Apply(s, steps[0]), steps[1..], t, c);
    }
  }

  lemma {:induction false} ClosesFirst(s: Sys, steps: seq<Step>, t: Sys, c: nat) returns (i: nat)
    requires Run(s, steps, t, AnyEnvironment) && c < s.nextId && c in s.cancels && s.cancels[c] == ClosingOrder
    requires c in t.cancels && t.cancels[c] == Cancelling
    ensures i < |steps| && steps[i] == Request(CancelClose(c, true))
    decreases |steps|
  {
    if steps[0] == Request(CancelClose(c, true)) {
      i := 0;
    } else if steps[0] == Request(CancelClose(c, false)) {
      GoneForGood(Apply(s, steps[0]), steps[1..], t, c);
      assert false;
    } else {
      if !steps[0].Request? {
        OtherStepsKeepCancels(s, steps[0]);
      }
      i := ClosesFirst(Apply(s, steps[0]), steps[1..], t, c);
      i := i + 1;
    }
  }

  /** A cancel request that found the job awaiting payment writes its update only after the order was closed
      for it, whatever happened in between. */
  lemma OrderClosedBeforeCancel(s: Sys, steps: seq<Step>, t: Sys, now: Time, effect: bool)
    requires s.job.Some? && s.job.value.status == AwaitingPayment && RequestEnabled(s, CancelRead)
    requires Run(RequestApply(s, CancelRead), steps, t, AnyEnvironment)
    requires RequestEnabled(t, CancelWrite(s.nextId, now, effect))
    ensures Request(CancelClose(s.nextId, true)) in steps
  {
    var i := ClosesFirst(RequestApply(s, CancelRead), steps, t, s.nextId);
  }
}
