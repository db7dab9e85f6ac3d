/** The recovery theorem is as strong as it can be.  After any step that `Recovery.Harmless` rejects, the job
    may be stranded without a further such step: the handlers that are left crash or return, and nobody and no
    entry remains. */
module Harm {
  import opened Text
  import opened Domain
  import opened JobUpdates
  import opened Pipeline
  import opened Safety
  import opened Exclusion
  import opened Finality
  import opened Progress
  import opened Abandonment
  import opened Recovery

  /** Nobody sees to the job, and it was never recorded or is at Processing. */
  predicate Stranded(s: Sys) {
    Abandoned(s) && (s.job.None? || AtProcessing(s))
  }

  ghost predicate MayBeStranded(s: Sys) {
    exists steps, t :: Run(s, steps, t, Recoverable) && Stranded(t)
  }

  lemma StrandedNow(s: Sys)
    requires Stranded(s)
    ensures MayBeStranded(s)
  {
    assert Run(s, [], s, Recoverable);
  }

  lemma StrandedLater(s: Sys, step: Step)
    requires Enabled(s, step) && Recoverable(s, step) && MayBeStranded(Apply(s, step))
    ensures MayBeStranded(s)
  {
    var steps, t :| Run(Apply(s, step), steps, t, Recoverable) && Stranded(t);
    assert ([step] + steps)[1..] == steps;
    assert Run(s, [step] + steps, t, Recoverable);
  }

  // ----- The handlers that are left go away -----

  /** A handler that has nothing to acknowledge crashes; one that has returned acknowledges its entry. */
  function Leaving<W>(st: Stage<W>, h: nat): QueueOp
    requires h in st.live
  {
    match st.live[h].pc
    case Unlocking(Ack) => Unlock(h, true)
    case Returned(Ack) => Finish(h, true)
    case _ => Crash(h)
  }

  lemma LeavingIsHarmless<W>(st: Stage<W>, h: nat)
    requires h in st.live && !Active(st)
    ensures QueueEnabled(st, Leaving(st, h)) && QueueKeepsEntries(st, Leaving(st, h)) && !Leaving(st, h).Lapse?
  {
  }

  /** Entries that are to be acknowledged stay so, or are. */
  lemma LeavingLeavesNothing<W>(st: Stage<W>, h: nat, id: nat, first: W)
    requires h in st.live && !Active(st) && QueueEnabled(st, Leaving(st, h))
    ensures var after := QueueApply(st, Leaving(st, h), id, first);
      && !Active(after)
      && if st.live[h].pc == Unlocking(Ack) then after.live == st.live[h := st.live[h].(pc := Returned(Ack))]
         else after.live.Keys == st.live.Keys - {h}
  {
    var after := QueueApply(st, Leaving(st, h), id, first);
    forall m | m in after.pending
      ensures Doomed(after, m)
    {
      assert !Waiting(st, m);
      var k :| k in st.live && st.live[k].msg == m && Acknowledging(st.live[k].pc);
      assert k in after.live && after.live[k].msg == m && Acknowledging(after.live[k].pc);
    }
  }

  /** Nobody is at work for a job at Processing, and no entry will be there to be claimed. */
  predicate Hopeless(s: Sys) {
    && s.api.ApiDone? && (s.job.None? || AtProcessing(s))
    && !Active(s.cmp) && (!Active(s.pay) || GateWaits(s))
  }

  lemma CompareLeaves(s: Sys, h: nat)
    requires Hopeless(s) && h in s.cmp.live
    ensures var step := CmpQueue(Leaving(s.cmp, h));
      && Enabled(s, step) && Recoverable(s, step) && Hopeless(Apply(s, step))
      && if s.cmp.live[h].pc == Unlocking(Ack) then
           Apply(s, step).cmp.live == s.cmp.live[h := s.cmp.live[h].(pc := Returned(Ack))]
         else Apply(s, step).cmp.live.Keys == s.cmp.live.Keys - {h}
  {
    LeavingIsHarmless(s.cmp, h);
    LeavingLeavesNothing(s.cmp, h, s.nextId, ReadJob);
  }

  lemma PayLeaves(s: Sys, h: nat)
    requires Hopeless(s) && h in s.pay.live && !Active(s.pay)
    ensures var step := PayQueue(Leaving(s.pay, h));
      && Enabled(s, step) && Recoverable(s, step) && Hopeless(Apply(s, step)) && !Active(Apply(s, step).pay)
      && Apply(s, step).cmp == s.cmp
      && if s.pay.live[h].pc == Unlocking(Ack) then
           Apply(s, step).pay.live == s.pay.live[h := s.pay.live[h].(pc := Returned(Ack))]
         else Apply(s, step).pay.live.Keys == s.pay.live.Keys - {h}
  {
    LeavingIsHarmless(s.pay, h);
    LeavingLeavesNothing(s.pay, h, s.nextId, ReadPaidState);
  }

  /** With its last handler a stage's last entry is gone. */
  lemma EmptyIsIdle<W>(st: Stage<W>)
    requires !Active(st) && st.live == map[]
    ensures Idle(st)
  {
    assert forall m :: m in st.pending ==> Waiting(st, m);
  }

  lemma {:induction false} PayDrains(s: Sys)
    requires Hopeless(s) && Idle(s.cmp)
    ensures MayBeStranded(s)
    decreases s.pay.live.Keys
  {
    if GateWaits(s) {
      StrandedNow(s);
    } else if s.pay.live == map[] {
      EmptyIsIdle(s.pay);
      StrandedNow(s);
    } else {
      var h :| h in s.pay.live;
      PayLeaves(s, h);
      var step := PayQueue(Leaving(s.pay, h));
      var t := Apply(s, step);
      if s.pay.live[h].pc == Unlocking(Ack) {
        PayLeaves(t, h);
        PayDrains(Apply(t, PayQueue(Leaving(t.pay, h))));
        StrandedLater(t, PayQueue(Leaving(t.pay, h)));
      } else {
        PayDrains(t);
      }
      StrandedLater(s, step);
    }
  }

  lemma {:induction false} CompareDrains(s: Sys)
    requires Hopeless(s)
    ensures MayBeStranded(s)
    decreases s.cmp.live.Keys
  {
    if s.cmp.live == map[] {
      EmptyIsIdle(s.cmp);
      PayDrains(s);
    } else {
      var h :| h in s.cmp.live;
      CompareLeaves(s, h);
      var step := CmpQueue(Leaving(s.cmp, h));
      var t := Apply(s, step);
      if s.cmp.live[h].pc == Unlocking(Ack) {
        CompareLeaves(t, h);
        CompareDrains(Apply(t, CmpQueue(Leaving(t.cmp, h))));
        StrandedLater(t, CmpQueue(Leaving(t.cmp, h)));
      } else {
        CompareDrains(t);
      }
      StrandedLater(s, step);
    }
  }

  // ----- Every step that does harm -----

  lemma CompareQueueHarms(s: Sys, op: QueueOp)
    requires Kept(s) && QueueEnabled(s.cmp, op) && LocksHold(s, CmpQueue(op)) && !Harmless(s, CmpQueue(op))
    ensures Hopeless(Apply(s, CmpQueue(op)))
  {
    EntriesKeptIff(s.cmp, op, s.nextId, ReadJob);
    NoGateNoHelp(s);
  }

  /** While there is no result, nobody is at the payment gate. */
  lemma NoGateNoHelp(s: Sys)
    requires Sound(s) && AtProcessing(s)
    ensures NeedsGate(s) || Idle(s.pay)
  {
  }

  lemma PayQueueHarms(s: Sys, op: QueueOp)
    requires Kept(s) && QueueEnabled(s.pay, op) && LocksHold(s, PayQueue(op)) && !Harmless(s, PayQueue(op))
    ensures Hopeless(Apply(s, PayQueue(op)))
  {
    EntriesKeptIff(s.pay, op, s.nextId, ReadPaidState);
  }

  lemma PayHarms(s: Sys, h: nat, act: PayAct)
    requires Kept(s) && PayEnabled(s, h, act) && !Harmless(s, PayDo(h, act))
    ensures Hopeless(PayApply(s, h, act))
  {
    if act.PayReadFails? {
      GivingUpKeepsActive(s.pay, h);
    } else {
      PanicIff(s.pay, h);
    }
  }

  /** Its failed read or enqueue, or the failure that it did not get recorded. */
  lemma CompareHarms(s: Sys, h: nat, act: CompareAct)
    requires Kept(s) && CompareEnabled(s, h, act) && !Harmless(s, CmpDo(h, act))
    requires !Persisting(s, h)
    ensures Hopeless(CompareApply(s, h, act))
  {
    NoGateNoHelp(s);
    if act.Write? {
      AloneOnEntry(s, h);
      PanicIff(s.cmp, h);
    } else {
      GivingUpKeepsActive(s.cmp, h);
    }
  }

  /** The worker in the critical section has the only entry, and nobody else is at work. */
  lemma AloneOnEntry(s: Sys, h: nat)
    requires Kept(s) && h in s.cmp.live && s.cmp.live[h].pc.Working?
    ensures !OthersRemain(s.cmp, h)
  {
    var m :| Single(s.cmp, m);
    assert s.cmp.live[h].msg == m && s.cmp.lock == Some(h);
  }

  lemma ApiHarms(s: Sys, a: ApiAct)
    requires Kept(s) && ApiEnabled(s, a) && Orderly(s, Api(a)) && !Harmless(s, Api(a))
    ensures MayBeStranded(ApiApply(s, a))
  {
    var t := ApiApply(s, a);
    if a.Create? {
      var s1 := Apply(t, Api(EnqueueJob(false, false, "")));
      StrandedNow(Apply(s1, Api(RecordFailure(true))));
      StrandedLater(s1, Api(RecordFailure(true)));
      StrandedLater(t, Api(EnqueueJob(false, false, "")));
    } else {
      StrandedNow(t);
    }
  }

  // ----- A result that is not recorded -----

  /** The worker reads the record again, hands the job on and is about to return. */
  function HandedOnUnseen(s: Sys, h: nat): Sys
    requires h in s.cmp.live
  {
    s.(cmp := Moved(s.cmp, h, Unlocking(Ack)), pay := Enqueued(s.pay, s.nextId), nextId := s.nextId + 1)
  }

  lemma PersistHarms(s: Sys, h: nat)
    requires Kept(s) && CompareEnabled(s, h, Write(false)) && Persisting(s, h) && AtProcessing(s)
    ensures MayBeStranded(CompareApply(s, h, Write(false)))
  {
    var s1 := CompareApply(s, h, Write(false));
    var s2 := CompareApply(s1, h, ReadOk(true));
    assert s2.cmp.live[h].pc == Working(HandOff);
    var s3 := CompareApply(s2, h, EnqueueOk);
    assert s3.cmp == HandedOnUnseen(s, h).cmp;
    HandsOnInVain(s, h);
    CompareDrains(s3);
    StrandedLater(s2, CmpDo(h, EnqueueOk));
    StrandedLater(s1, CmpDo(h, ReadOk(true)));
  }

  lemma HandsOnInVain(s: Sys, h: nat)
    requires Kept(s) && h in s.cmp.live && Persisting(s, h) && AtProcessing(s)
    ensures Hopeless(HandedOnUnseen(s, h))
  {
    AloneOnEntry(s, h);
    PanicIff(s.cmp, h);
    NoGateNoHelp(s);
    KeyNotBlank(s);
    assert IsOwing(s.cmp.live[h].pc);
  }

  // ----- Main result -----

  lemma HarmStrands(s: Sys, step: Step)
    requires Kept(s) && Enabled(s, step) && Orderly(s, step) && !Harmless(s, step)
    ensures MayBeStranded(Apply(s, step))
  {
    match step
    case CmpQueue(op) =>
      CompareQueueHarms(s, op);
      CompareDrains(Apply(s, step));
    case PayQueue(op) =>
      PayQueueHarms(s, op);
      CompareDrains(Apply(s, step));
    case CmpDo(h, act) =>
      if Persisting(s, h) {
        PersistHarms(s, h);
      } else {
        CompareHarms(s, h, act);
        CompareDrains(Apply(s, step));
      }
    case PayDo(h, act) =>
      PayHarms(s, h, act);
      CompareDrains(Apply(s, step));
    case Api(a) => ApiHarms(s, a);
  }

  lemma KeptMayNotBeStranded(s: Sys)
    requires Kept(s)
    ensures !MayBeStranded(s)
  {
    forall steps, t | Run(s, steps, t, Recoverable)
      ensures !Stranded(t)
    {
      RunKept(s, steps, t);
      if Abandoned(t) {
        KeptNotStranded(t);
      }
    }
  }

  /** Recoverable is exact.  Take a state that a run of recoverable steps has led to, and any step under A1
      and A3: some recoverable run from there on strands the job if and only if the step was not recoverable.
      So no step can be added to those that lose no job, and none of them is excluded without need. */
  lemma RecoverableIsExact(s: Sys, steps: seq<Step>, t: Sys, step: Step)
    requires Init(s) && Run(s, steps, t, Recoverable) && Enabled(t, step) && Orderly(t, step)
    ensures MayBeStranded(Apply(t, step)) <==> !Recoverable(t, step)
  {
    InitIsKept(s);
    RunKept(s, steps, t);
    if Recoverable(t, step) {
      StepKept(t, step);
      KeptMayNotBeStranded(Apply(t, step));
    } else {
      HarmStrands(t, step);
    }
  }
}
