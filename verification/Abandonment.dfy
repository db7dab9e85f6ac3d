/** What becomes of a job that nobody sees to any more: the upload handler is done, the compare stage has
    nothing left to deliver, to claim or to handle, and the payment stage has nothing left either, or
    waits in vain for a result. */
module Abandonment {
  import opened Text
  import opened Domain
  import opened JobUpdates
  import opened Pipeline
  import opened Exclusion
  import opened Finality
  import Amount

  predicate NoResult(s: Sys) {
    s.job.Some? ==> !HasResult(s.job.value)
  }

  /** No payment-worker has got past its read: each will find the result missing. */
  predicate GateWaits(s: Sys) {
    NoResult(s) && forall h :: h in s.pay.live ==> !Advancing(s.pay.live[h].pc)
  }

  predicate Abandoned(s: Sys) {
    s.api.ApiDone? && Idle(s.cmp) && (Idle(s.pay) || GateWaits(s))
  }

  /** Requests touch the record, but not its result, and nobody else does. */
  lemma AbandonedStep(s: Sys, step: Step)
    requires Abandoned(s) && s.job.Some? && Enabled(s, step)
    ensures Abandoned(Apply(s, step)) && Apply(s, step).job.Some?
    ensures step.Request? || Apply(s, step).job == s.job
    ensures Apply(s, step).codeStored == s.codeStored
  {
    match step
    case CmpQueue(op) => IdleOnlyLapses(s.cmp, op, s.nextId, ReadJob);
    case PayQueue(op) =>
      if Idle(s.pay) {
        IdleOnlyLapses(s.pay, op, s.nextId, ReadPaidState);
      } else {
        QueueDoesNoWork(s.pay, op, s.nextId, ReadPaidState);
      }
    case PayDo(h, act) => WaitsInVain(s, h, act);
    case Request(r) => RequestFindsAbandoned(s, r);
    case _ =>
  }

  lemma RequestFindsAbandoned(s: Sys, r: RequestAct)
    requires Abandoned(s) && s.job.Some? && RequestEnabled(s, r)
    ensures Abandoned(RequestApply(s, r)) && RequestApply(s, r).job.Some?
    ensures RequestApply(s, r).codeStored == s.codeStored
  {
  }

  lemma WaitsInVain(s: Sys, h: nat, act: PayAct)
    requires GateWaits(s) && s.job.Some? && PayEnabled(s, h, act)
    ensures GateWaits(PayApply(s, h, act)) && PayApply(s, h, act).job == s.job
    ensures PayApply(s, h, act).codeStored == s.codeStored
  {
    assert s.pay.live[h].pc == Working(ReadPaidState);
    if act.PayReadOk? {
      ReadDecides(s.job, act.fee);
    }
  }

  /** Nothing can release the job: a payment would have to find it unpaid and with a result. */
  predicate Lost(j: Job) {
    (j.status == Processing || j.status == Cancelled) && (j.paid || !HasResult(j))
  }

  lemma LostStep(s: Sys, step: Step)
    requires Abandoned(s) && s.job.Some? && Lost(s.job.value) && Enabled(s, step)
    ensures Apply(s, step).job.Some? && Lost(Apply(s, step).job.value)
    ensures s.job.value.paid ==> Apply(s, step).job == s.job
  {
    AbandonedStep(s, step);
  }

  /** A job at Processing that nobody sees to, and that is paid or has no result, is never released, never
      fails and never awaits a payment, whatever happens: it stays at Processing or is cancelled, and if it
      is paid it cannot even be cancelled. */
  lemma {:induction false} AbandonedIsFinal(s: Sys, steps: seq<Step>, t: Sys)
    requires Abandoned(s) && s.job.Some? && Lost(s.job.value) && Run(s, steps, t, AnyEnvironment)
    ensures Abandoned(t) && t.job.Some? && Lost(t.job.value)
    ensures s.job.value.paid ==> t.job == s.job
    decreases |steps|
  {
    if steps != [] {
      AbandonedStep(s, steps[0]);
      LostStep(s, steps[0]);
      AbandonedIsFinal(Apply(s, steps[0]), steps[1..], t);
    }
  }

  ghost predicate MayBeReleased(s: Sys) {
    exists steps, t :: Run(s, steps, t, AnyEnvironment) && StatusIn(t, {Ready})
  }

  /** Exactly the unpaid jobs with a result have a way out: a payment that nobody was asked for. */
  lemma AbandonedReleaseIff(s: Sys)
    requires Abandoned(s) && StatusIn(s, {Processing})
    ensures MayBeReleased(s) <==> HasResult(s.job.value) && !s.job.value.paid
  {
    if HasResult(s.job.value) && !s.job.value.paid {
      PaymentReleases(s);
    }
    if Lost(s.job.value) {
      forall steps, t | Run(s, steps, t, AnyEnvironment)
        ensures !StatusIn(t, {Ready})
      {
        AbandonedIsFinal(s, steps, t);
      }
    }
  }

  lemma PaymentReleases(s: Sys)
    requires StatusIn(s, {Processing}) && HasResult(s.job.value) && !s.job.value.paid
    ensures MayBeReleased(s)
  {
    var product := s.job.value.amountYuan * 100.0;
    var total := Amount.ExpectedFen(product);
    assert Amount.AcceptedAt(s.job.value.amountYuan, product, total);
    var read, write := Request(NotifyRead(total, true, product)), Request(NotifyWrite(s.nextId, 0, true));
    var s1 := Apply(s, read);
    assert s1.job == s.job && s.nextId in s1.notifies;
    var s2 := Apply(s1, write);
    assert Run(s, [], s, AnyEnvironment);
    RunExtends(s, [], s, read, AnyEnvironment);
    RunExtends(s, [] + [read], s1, write, AnyEnvironment);
    assert Run(s, [] + [read] + [write], s2, AnyEnvironment) && StatusIn(s2, {Ready});
  }

  /** The job was never quoted, so no payment is on its way either. */
  predicate Forgotten(s: Sys) {
    && Abandoned(s) && StatusIn(s, {Processing, Cancelled})
    && !s.codeStored && s.notifies == {}
  }

  lemma ForgottenStep(s: Sys, step: Step)
    requires Forgotten(s) && Enabled(s, step) && Honest(s, step)
    ensures Forgotten(Apply(s, step))
  {
    AbandonedStep(s, step);
  }

  lemma {:induction false} ForgottenForGood(s: Sys, steps: seq<Step>, t: Sys)
    requires Forgotten(s) && Run(s, steps, t, Honest)
    ensures Forgotten(t)
    decreases |steps|
  {
    if steps != [] {
      ForgottenStep(s, steps[0]);
      ForgottenForGood(Apply(s, steps[0]), steps[1..], t);
    }
  }

  /** Under A1, A2 and A3 not even that way out exists: an abandoned job at Processing stays there or is
      cancelled. */
  lemma HonestlyAbandonedIsFinal(s: Sys, before: seq<Step>, t: Sys, after: seq<Step>, u: Sys)
    requires Init(s) && Run(s, before, t, Honest) && Abandoned(t) && StatusIn(t, {Processing})
    requires Run(t, after, u, Honest)
    ensures Abandoned(u) && StatusIn(u, {Processing, Cancelled})
  {
    InitIsClean(s);
    RunQuoted(s, before, t);
    ForgottenForGood(t, after, u);
  }
}
