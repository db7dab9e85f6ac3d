/** What holds in every reachable state with no assumption on the environment at all: locks may
    expire under their holders, workers may crash or panic, updates may be lost, reads are stale. */
module Safety {
  import opened Text
  import opened Domain
  import opened JobUpdates
  import opened Pipeline
  import Amount

  /** The order whose code URL and amount an awaiting record shows. */
  predicate Quotes(o: Order, j: Job) {
    o.url == j.codeURL && 0 < o.fee && Amount.StoredAmount(o.fee, j.amountYuan)
  }

  predicate Payable(j: Job, orders: seq<Order>) {
    && !j.paid && !Blank(j.resultKey) && !Blank(j.codeURL)
    && exists i :: 0 <= i < |orders| && Quotes(orders[i], j)
  }

  predicate SafeJob(j: Job, objectKey: string, orders: seq<Order>) {
    && (j.paid <==> j.paidAt.Some?)
    && (j.resultKey == "" || j.resultKey == objectKey)
    && j.resultPath == ""
    && (j.status == Ready ==> j.paid && j.resultKey == objectKey && j.amountYuan == 0.0)
    && (j.status == AwaitingPayment ==> j.resultKey == objectKey && Payable(j, orders))
  }

  /** What a payment-worker's stale copy still says about the record. */
  predicate SafePayWork(w: PayWork, s: Sys) {
    match w
    case ReadPaidState => true
    case ReleaseJob(key) => KeyHeld(key, s) && s.job.value.paid
    case ReleaseFreeJob(key) => KeyHeld(key, s)
    case PlaceOrder(key, fee) => KeyHeld(key, s) && 0 < fee
    case StoreOrder(key, fee, url) => KeyHeld(key, s) && 0 < fee && !Blank(url) && Order(fee, url) in s.orders
    case Reject(_) => s.job.Some? && s.job.value.resultKey == s.objectKey
  }

  predicate KeyHeld(key: string, s: Sys) {
    key == s.objectKey && s.job.Some? && s.job.value.resultKey == s.objectKey
  }

  predicate Safe(s: Sys) {
    && s.objectKey != "" && Trimmed(s.objectKey)
    && (s.api.Creating? ==> s.job.None?)
    && (s.job.Some? ==> SafeJob(s.job.value, s.objectKey, s.orders))
    && forall h :: h in s.pay.live && s.pay.live[h].pc.Working? ==> SafePayWork(s.pay.live[h].pc.w, s)
  }

  /** No later step undoes a payment or a result. */
  predicate Grows(s: Sys, t: Sys) {
    && t.objectKey == s.objectKey
    && |s.orders| <= |t.orders| && t.orders[..|s.orders|] == s.orders
    && (s.job.Some? ==>
      && t.job.Some?
      && (s.job.value.paid ==> t.job.value.paid && t.job.value.paidAt == s.job.value.paidAt)
      && (s.job.value.resultKey != "" ==> t.job.value.resultKey == s.job.value.resultKey))
  }

  lemma KeyNotBlank(s: Sys)
    requires Safe(s)
    ensures !Blank(s.objectKey) && TrimSpace(s.objectKey) == s.objectKey && Blank("")
  {
    TrimmedIsFixed(s.objectKey);
  }

  lemma PayableLater(j: Job, orders: seq<Order>, more: seq<Order>)
    requires Payable(j, orders) && |orders| <= |more| && more[..|orders|] == orders
    ensures Payable(j, more)
  {
    var i :| 0 <= i < |orders| && Quotes(orders[i], j);
    assert more[i] == more[..|orders|][i];
  }

  /** Stale knowledge of a payment-worker stays true while the record grows. */
  lemma PayWorkLater(w: PayWork, s: Sys, t: Sys)
    requires SafePayWork(w, s) && Grows(s, t) && s.objectKey != ""
    ensures SafePayWork(w, t)
  {
    if w.StoreOrder? {
      var i :| 0 <= i < |s.orders| && s.orders[i] == Order(w.fee, w.url);
      assert t.orders[i] == t.orders[..|s.orders|][i];
    }
  }

  /** The handler's next piece of work is justified by the record of this moment. */
  predicate Justified(pc: Pc<PayWork>, s: Sys) {
    pc.Working? ==> SafePayWork(pc.w, s)
  }

  /** What is left to show of a step once it is known to grow the record: the record itself, and
      the program counters of the handlers that moved. */
  lemma FrameSafe(s: Sys, t: Sys)
    requires Safe(s) && Grows(s, t)
    requires t.api.Creating? ==> t.job.None?
    requires t.job.Some? ==> SafeJob(t.job.value, t.objectKey, t.orders)
    requires forall k :: k in t.pay.live ==>
      (k in s.pay.live && t.pay.live[k].pc == s.pay.live[k].pc) || Justified(t.pay.live[k].pc, t)
    ensures Safe(t)
  {
    forall k | k in t.pay.live && t.pay.live[k].pc.Working?
      ensures SafePayWork(t.pay.live[k].pc.w, t)
    {
      if k in s.pay.live && t.pay.live[k].pc == s.pay.live[k].pc {
        PayWorkLater(s.pay.live[k].pc.w, s, t);
      }
    }
  }

  lemma CompareStepSafe(s: Sys, h: nat, act: CompareAct)
    requires Safe(s) && CompareEnabled(s, h, act)
    ensures Grows(s, CompareApply(s, h, act)) && Safe(CompareApply(s, h, act))
  {
    KeyNotBlank(s);
    FrameSafe(s, CompareApply(s, h, act));
  }

  lemma PayWriteSafe(s: Sys, h: nat, effect: bool, now: Time, yuan: real)
    requires Safe(s) && PayEnabled(s, h, PayWrite(effect, now, yuan))
    ensures var t := PayApply(s, h, PayWrite(effect, now, yuan)); Grows(s, t) && Safe(t)
  {
    KeyNotBlank(s);
    var t := PayApply(s, h, PayWrite(effect, now, yuan));
    var w := s.pay.live[h].pc.w;
    assert SafePayWork(w, s);
    if w.StoreOrder? && t.job != s.job {
      var i :| 0 <= i < |s.orders| && s.orders[i] == Order(w.fee, w.url);
      assert Quotes(s.orders[i], t.job.value);
    }
    FrameSafe(s, t);
  }

  /** The record's key is "" or a trimmed key, so the payment-worker's trimming keeps it. */
  lemma StoredKeyTrimmed(s: Sys)
    requires Safe(s) && s.job.Some?
    ensures TrimSpace(s.job.value.resultKey) == s.job.value.resultKey
    ensures Blank(s.job.value.resultKey) <==> s.job.value.resultKey == ""
  {
    if s.job.value.resultKey != "" {
      TrimmedIsFixed(s.objectKey);
    }
  }

  lemma PayReadSafe(s: Sys, fee: int)
    requires Safe(s)
    ensures Justified(AfterPayRead(s.job, fee), s)
  {
    if s.job.Some? {
      StoredKeyTrimmed(s);
    }
  }

  lemma PayOrderSafe(s: Sys, h: nat, act: PayAct)
    requires Safe(s) && PayEnabled(s, h, act) && act.OrderOk?
    ensures Grows(s, PayApply(s, h, act)) && Safe(PayApply(s, h, act))
  {
    var t := PayApply(s, h, act);
    assert t.orders[|s.orders|] == Order(s.pay.live[h].pc.w.fee, act.url);
    if s.job.Some? && s.job.value.status == AwaitingPayment {
      PayableLater(s.job.value, s.orders, t.orders);
    }
    assert SafePayWork(s.pay.live[h].pc.w, s);
    FrameSafe(s, t);
  }

  /** A handler that moves on without writing, with work that is justified. */
  lemma PayMoveSafe(s: Sys, h: nat, pc: Pc<PayWork>)
    requires Safe(s) && h in s.pay.live && Justified(pc, s)
    ensures Safe(s.(pay := Moved(s.pay, h, pc)))
  {
  }

  lemma PayOtherSafe(s: Sys, h: nat, act: PayAct)
    requires Safe(s) && PayEnabled(s, h, act) && (act.PayReadOk? || act.PayReadFails? || act.OrderFails?)
    ensures Grows(s, PayApply(s, h, act)) && Safe(PayApply(s, h, act))
  {
    assert SafePayWork(s.pay.live[h].pc.w, s);
    match act
    case PayReadOk(fee) =>
      PayReadSafe(s, fee);
      PayMoveSafe(s, h, AfterPayRead(s.job, fee));
    case PayReadFails => PayMoveSafe(s, h, Unlocking(Keep));
    case OrderFails(msg) => PayMoveSafe(s, h, Working(Reject(ORDER_FAILED + msg)));
  }

  lemma PayStepSafe(s: Sys, h: nat, act: PayAct)
    requires Safe(s) && PayEnabled(s, h, act)
    ensures Grows(s, PayApply(s, h, act)) && Safe(PayApply(s, h, act))
  {
    match act
    case PayWrite(effect, now, yuan) => PayWriteSafe(s, h, effect, now, yuan);
    case OrderOk(_) => PayOrderSafe(s, h, act);
    case _ => PayOtherSafe(s, h, act);
  }

  lemma PayQueueSafe(s: Sys, op: QueueOp)
    requires Safe(s) && QueueEnabled(s.pay, op)
    ensures Grows(s, Apply(s, PayQueue(op))) && Safe(Apply(s, PayQueue(op)))
  {
    FrameSafe(s, Apply(s, PayQueue(op)));
  }

  lemma RequestStepSafe(s: Sys, r: RequestAct)
    requires Safe(s) && RequestEnabled(s, r)
    ensures Grows(s, RequestApply(s, r)) && Safe(RequestApply(s, r))
  {
    KeyNotBlank(s);
    FrameSafe(s, RequestApply(s, r));
  }

  lemma ApiStepSafe(s: Sys, a: ApiAct)
    requires Safe(s) && ApiEnabled(s, a)
    ensures Grows(s, ApiApply(s, a)) && Safe(ApiApply(s, a))
  {
    FrameSafe(s, ApiApply(s, a));
  }

  /** Safe is an inductive invariant of the unrestricted system, and every step only grows the record. */
  lemma StepSafe(s: Sys, step: Step)
    requires Safe(s) && Enabled(s, step)
    ensures Grows(s, Apply(s, step)) && Safe(Apply(s, step))
  {
    match step
    case Api(a) => ApiStepSafe(s, a);
    case CmpQueue(op) => FrameSafe(s, Apply(s, step));
    case PayQueue(op) => PayQueueSafe(s, op);
    case CmpDo(h, act) => CompareStepSafe(s, h, act);
    case PayDo(h, act) => PayStepSafe(s, h, act);
    case Request(r) => RequestStepSafe(s, r);
  }

  // ----- Main results -----

  /** Every reachable state is safe, whatever the environment does. */
  lemma {:induction false} ReachableSafe(s: Sys, steps: seq<Step>, t: Sys, assumed: (Sys, Step) -> bool)
    requires Safe(s) && Run(s, steps, t, assumed)
    ensures Safe(t) && Grows(s, t)
    decreases |steps|
  {
    if steps != [] {
      var u := Apply(s, steps[0]);
      StepSafe(s, steps[0]);
      ReachableSafe(u, steps[1..], t, assumed);
      assert t.orders[..|s.orders|] == t.orders[..|u.orders|][..|s.orders|];
    }
  }
}
