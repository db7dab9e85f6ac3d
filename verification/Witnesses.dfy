/** Runs that show what the pipeline does not promise: each of the assumptions A1, A2 and A3 is needed, a
    cancelled job may turn into a failed one, and crashes, panics and lost calls may strand a job for good.
    The honest run shows that jobs do get released. */
module Witnesses {
  import opened Text
  import opened Domain
  import opened JobUpdates
  import opened Pipeline
  import opened Finality
  import opened Progress
  import opened Abandonment
  import opened Recovery
  import Amount

  ghost predicate Reach(s: Sys, t: Sys, env: (Sys, Step) -> bool) {
    exists steps :: Run(s, steps, t, env)
  }

  lemma Go(s: Sys, t: Sys, step: Step, env: (Sys, Step) -> bool) returns (u: Sys)
    requires Reach(s, t, env) && Enabled(t, step) && env(t, step)
    ensures u == Apply(t, step) && Reach(s, u, env)
  {
    var steps :| Run(s, steps, t, env);
    RunExtends(s, steps, t, step, env);
    u := Apply(t, step);
  }

  predicate Ordinary(step: Step) {
    match step
    case CmpQueue(op) => !op.Lapse?
    case PayQueue(op) => !op.Lapse?
    case CmpDo(_, _) => true
    case PayDo(_, _) => true
    case _ => false
  }

  /** The environment does not restrict what workers and streams do while all goes well. */
  ghost predicate Permissive(env: (Sys, Step) -> bool) {
    forall s: Sys, step: Step :: Ordinary(step) && FaultFree(s, step) && Harmless(s, step) ==> env(s, step)
  }

  const FRESH: Job := NewJob("a", "b")

  const TIMED_OUT: ApiPc := Failing(ENQUEUE_FAILED + "timeout")

  const REFUSED: PayWork := Reject(ORDER_FAILED + "refused")

  const BUILT: Job := FRESH.(resultKey := "r")

  function Begin(): Sys {
    Sys("r", None, Creating, EmptyStage(), EmptyStage(), map[], {}, 0, [], 0, false)
  }

  /** The upload handler created the job and enqueued it, and is now at `api`. */
  function Published(api: ApiPc): Sys {
    Sys("r", Some(FRESH), api, Stage({0}, {}, None, map[]), EmptyStage(), map[], {}, 1, [], 0, false)
  }

  /** A compare-worker took the entry and read the record. */
  function Comparing(api: ApiPc): Sys {
    Sys("r", Some(FRESH), api, Stage({}, {0}, Some(1), map[1 := Handler(0, Working(Reset))]), EmptyStage(), map[],
      {}, 3, [], 0, false)
  }

  lemma Publish(api: ApiPc, env: (Sys, Step) -> bool)
    requires api == ApiDone || api == TIMED_OUT
    requires env(Begin(), Api(Create("a", "b", true)))
    requires var s1 := Apply(Begin(), Api(Create("a", "b", true))); env(s1, Api(EnqueueJob(api
      == ApiDone, true, "timeout")))
    ensures Init(Begin()) && Reach(Begin(), Published(api), env)
  {
    assert !IsSpace('r');
    var s0 := Begin();
    assert Run(s0, [], s0, env);
    var s1 := Go(s0, s0, Api(Create("a", "b", true)), env);
    var s2 := Go(s0, s1, Api(EnqueueJob(api == ApiDone, true, "timeout")), env);
    assert s2.cmp == Stage({0}, {}, None, map[]);
    assert s2 == Published(api);
  }

  lemma Acquired(api: ApiPc, env: (Sys, Step) -> bool) returns (s: Sys)
    requires Reach(Begin(), Published(api), env) && Permissive(env)
    ensures Reach(Begin(), s, env)
    ensures s == Comparing(api).(cmp := Stage({}, {0}, Some(1), map[1 := Handler(0, Working(ReadJob))]))
  {
    var s1 := Go(Begin(), Published(api), CmpQueue(Deliver(0)), env);
    assert s1.cmp == Stage({}, {0}, None, map[1 := Handler(0, Acquiring)]);
    s := Go(Begin(), s1, CmpQueue(Acquire(1)), env);
    assert s.cmp == Stage({}, {0}, Some(1), map[1 := Handler(0, Working(ReadJob))]);
  }

  lemma StartComparing(api: ApiPc, env: (Sys, Step) -> bool)
    requires Reach(Begin(), Published(api), env) && Permissive(env)
    ensures Reach(Begin(), Comparing(api), env)
  {
    var s2 := Acquired(api, env);
    var s3 := Go(Begin(), s2, CmpDo(1, ReadOk(true)), env);
    assert s3.cmp == Stage({}, {0}, Some(1), map[1 := Handler(0, Working(Reset))]);
  }

  /** It built and recorded the result, and handed the job on to the payment gate. */
  function HandedOn(api: ApiPc): Sys {
    Sys("r", Some(BUILT), api, Stage({}, {}, None, map[]), Stage({3}, {}, None, map[]), map[], {}, 6, [], 0, false)
  }

  /** The worker further on, at `w`, with `job` in the store. */
  function At(api: ApiPc, job: Job, w: CompareWork): Sys {
    Comparing(api).(job := Some(job), cmp := Stage({}, {0}, Some(1), map[1 := Handler(0, Working(w))]))
  }

  lemma BuildIt(api: ApiPc, env: (Sys, Step) -> bool)
    requires Reach(Begin(), Comparing(api), env) && Permissive(env)
    ensures Reach(Begin(), At(api, FRESH, Build), env)
  {
    var s1 := Go(Begin(), Comparing(api), CmpDo(1, Write(true)), env);
    assert s1.cmp == At(api, FRESH, Build).cmp;
  }

  lemma RecordIt(api: ApiPc, env: (Sys, Step) -> bool)
    requires Reach(Begin(), At(api, FRESH, Build), env) && Permissive(env)
    ensures Reach(Begin(), At(api, BUILT, HandOff), env)
  {
    var s1 := Go(Begin(), At(api, FRESH, Build), CmpDo(1, BuildOk), env);
    assert s1.cmp == At(api, FRESH, Persist).cmp;
    var s2 := Go(Begin(), s1, CmpDo(1, Write(true)), env);
    assert s2.cmp == At(api, FRESH, ReadAgain).cmp;
    var s3 := Go(Begin(), s2, CmpDo(1, ReadOk(true)), env);
    assert s3.cmp == At(api, BUILT, HandOff).cmp;
  }

  lemma HandOn(api: ApiPc, env: (Sys, Step) -> bool)
    requires Reach(Begin(), At(api, BUILT, HandOff), env) && Permissive(env)
    ensures Reach(Begin(), HandedOn(api), env)
  {
    var s0 := Begin();
    var s5 := Go(s0, At(api, BUILT, HandOff), CmpDo(1, EnqueueOk), env);
    assert s5.cmp == Stage({}, {0}, Some(1), map[1 := Handler(0, Unlocking(Ack))]) && s5.pay
      == Stage({3}, {}, None, map[]);
    var s6 := Go(s0, s5, CmpQueue(Unlock(1, true)), env);
    assert s6.cmp == Stage({}, {0}, None, map[1 := Handler(0, Returned(Ack))]);
    var s7 := Go(s0, s6, CmpQueue(Finish(1, true)), env);
    assert s7.cmp == Stage({}, {}, None, map[]);
  }

  /** A payment-worker took the job and is at `pc`. */
  function InGate(api: ApiPc, pc: Pc<PayWork>): Sys {
    HandedOn(api).(pay := Stage({}, {3}, Some(6), map[6 := Handler(3, pc)]), nextId := 8)
  }

  /** It read the record, with a fee of `fee` fen. */
  function Gated(api: ApiPc, fee: int): Sys {
    InGate(api, if fee <= 0 then Working(ReleaseFreeJob("r")) else Working(PlaceOrder("r", fee)))
  }

  lemma TakeUpGate(api: ApiPc, env: (Sys, Step) -> bool)
    requires Reach(Begin(), HandedOn(api), env) && Permissive(env)
    ensures Reach(Begin(), InGate(api, Working(ReadPaidState)), env)
  {
    var s1 := Go(Begin(), HandedOn(api), PayQueue(Deliver(3)), env);
    assert s1.pay == Stage({}, {3}, None, map[6 := Handler(3, Acquiring)]);
    var s2 := Go(Begin(), s1, PayQueue(Acquire(6)), env);
    assert s2.pay == InGate(api, Working(ReadPaidState)).pay;
  }

  lemma EnterGate(api: ApiPc, fee: int, env: (Sys, Step) -> bool)
    requires Reach(Begin(), HandedOn(api), env) && Permissive(env)
    ensures Reach(Begin(), Gated(api, fee), env)
  {
    TakeUpGate(api, env);
    BuiltReads(fee);
    var s3 := Go(Begin(), InGate(api, Working(ReadPaidState)), PayDo(6, PayReadOk(fee)), env);
    assert s3.pay == Gated(api, fee).pay;
  }

  lemma KeyIsTrimmed()
    ensures TrimSpace(BUILT.resultKey) == "r" && !Blank(BUILT.resultKey)
  {
    assert BUILT.resultKey == "r" && !IsSpace('r') && Trimmed("r");
    TrimmedIsFixed("r");
    assert IsSpace("r"[0]) == false;
  }

  lemma BuiltReads(fee: int)
    ensures AfterPayRead(Some(BUILT), fee)
      == if fee <= 0 then Working(ReleaseFreeJob("r")) else Working(PlaceOrder("r", fee))
  {
    KeyIsTrimmed();
  }

  /** From the upload to the payment gate. */
  lemma ReachGate(api: ApiPc, fee: int, env: (Sys, Step) -> bool)
    requires Reach(Begin(), Published(api), env) && Permissive(env)
    ensures Reach(Begin(), Gated(api, fee), env)
  {
    StartComparing(api, env);
    BuildIt(api, env);
    RecordIt(api, env);
    HandOn(api, env);
    EnterGate(api, fee, env);
  }

  /** From upload to release, free of charge. */
  lemma FreeRelease(api: ApiPc, env: (Sys, Step) -> bool) returns (t: Sys)
    requires Reach(Begin(), Published(api), env) && Permissive(env)
    ensures Reach(Begin(), t, env) && t.job.Some? && t.job.value.status == Ready && t.api == api
  {
    ReachGate(api, 0, env);
    t := Go(Begin(), Gated(api, 0), PayDo(6, PayWrite(true, 0, 0.0)), env);
  }

  ghost predicate Shows(s: Sys, status: Status) {
    s.job.Some? && s.job.value.status == status
  }

  /** A run under `env` leads to a state with status `a`, and one more run from there to status `b`. */
  ghost predicate Leads(env: (Sys, Step) -> bool, a: Status, b: Status) {
    exists t, u :: Reach(Begin(), t, env) && Shows(t, a) && Reach(t, u, env) && Shows(u, b)
  }

  lemma OneMore(t: Sys, step: Step, env: (Sys, Step) -> bool) returns (u: Sys)
    requires Enabled(t, step) && env(t, step)
    ensures u == Apply(t, step) && Reach(t, u, env)
  {
    assert Run(t, [], t, env);
    u := Go(t, t, step, env);
  }

  // ----- Without A3 -----

  predicate A1AndA2(s: Sys, step: Step) { LocksHold(s, step) && PaidAfterQuote(s, step) }

  /** The enqueue call timed out although the entry had been added: the job is built and released, and
      then the upload handler records the failure. */
  lemma WithoutA3ReadyIsLost()
    ensures Init(Begin()) && Leads(A1AndA2, Ready, Failed)
  {
    Publish(TIMED_OUT, A1AndA2);
    var t := FreeRelease(TIMED_OUT, A1AndA2);
    var u := OneMore(t, Api(RecordFailure(true)), A1AndA2);
    assert Shows(t, Ready) && Shows(u, Failed);
  }

  /** Or it records the failure first, and the worker that has just read the record resets it. */
  lemma WithoutA3FailedIsRevived()
    ensures Leads(A1AndA2, Failed, Processing)
  {
    var api := TIMED_OUT;
    Publish(api, A1AndA2);
    StartComparing(api, A1AndA2);
    var t := Go(Begin(), Comparing(api), Api(RecordFailure(true)), A1AndA2);
    assert t.cmp == Comparing(api).cmp;
    var u := OneMore(t, CmpDo(1, Write(true)), A1AndA2);
    assert Shows(t, Failed) && Shows(u, Processing);
  }

  // ----- Without A2 -----

  /** A payment confirmed before any order was recorded releases the job; then the worker whose order
      had failed marks it failed. */
  lemma WithoutA2ReadyIsLost()
    ensures Leads(Orderly, Ready, Failed)
  {
    var s := OrderRefused();
    var t := PaidEarly(s);
    var u := OneMore(t, PayDo(6, PayWrite(true, 0, 0.0)), Orderly);
    assert Shows(t, Ready) && Shows(u, Failed);
  }

  lemma OrderRefused() returns (s: Sys)
    ensures Reach(Begin(), s, Orderly) && s.job == Some(BUILT) && s.notifies == {}
    ensures 6 in s.pay.live && s.pay.live[6] == Handler(3, Working(REFUSED))
  {
    Publish(ApiDone, Orderly);
    ReachGate(ApiDone, 1, Orderly);
    s := Go(Begin(), Gated(ApiDone, 1), PayDo(6, OrderFails("refused")), Orderly);
  }

  lemma PaidEarly(s: Sys) returns (t: Sys)
    requires Reach(Begin(), s, Orderly) && s.job == Some(BUILT) && s.notifies == {}
    ensures Reach(Begin(), t, Orderly) && Shows(t, Ready) && t.pay == s.pay
  {
    KeyIsTrimmed();
    assert Amount.AcceptedAt(0.0, 0.0, 1);
    var s1 := Go(Begin(), s, Request(NotifyRead(1, true, 0.0)), Orderly);
    t := Go(Begin(), s1, Request(NotifyWrite(s.nextId, 7, true)), Orderly);
  }

  // ----- Without A1 -----

  const STALE: Handler<CompareWork> := Handler(0, Working(Reset))

  /** The first worker is stuck with an expired lock; a second one claimed the entry and is at `pc`. */
  function Overlapping(job: Job, pc: Pc<CompareWork>, lock: Option<nat>): Sys {
    Sys("r", Some(job), ApiDone, Stage({}, {0}, lock, map[1 := STALE, 4 := Handler(0, pc)]), EmptyStage(), map[],
      {}, 6, [], 0, false)
  }

  lemma ClaimExpired()
    ensures Reach(Begin(), Overlapping(FRESH, Working(ReadJob), Some(4)), A2AndA3)
  {
    Publish(ApiDone, A2AndA3);
    StartComparing(ApiDone, A2AndA3);
    var s0 := Begin();
    var s1 := Go(s0, Comparing(ApiDone), CmpQueue(Lapse), A2AndA3);
    var s2 := Go(s0, s1, CmpQueue(Claim(0)), A2AndA3);
    assert s2.cmp == Stage({}, {0}, None, map[1 := STALE, 4 := Handler(0, Acquiring)]);
    var s3 := Go(s0, s2, CmpQueue(Acquire(4)), A2AndA3);
    assert s3.cmp == Overlapping(FRESH, Working(ReadJob), Some(4)).cmp;
    assert s3 == Overlapping(FRESH, Working(ReadJob), Some(4));
  }

  lemma SecondBuild()
    ensures Reach(Begin(), Overlapping(BUILT, Working(ReadAgain), Some(4)), A2AndA3)
  {
    ClaimExpired();
    var s0 := Begin();
    var s1 := Go(s0, Overlapping(FRESH, Working(ReadJob), Some(4)), CmpDo(4, ReadOk(true)), A2AndA3);
    assert s1 == Overlapping(FRESH, Working(Reset), Some(4));
    var s2 := Go(s0, s1, CmpDo(4, Write(true)), A2AndA3);
    assert s2 == Overlapping(FRESH, Working(Build), Some(4));
    var s3 := Go(s0, s2, CmpDo(4, BuildOk), A2AndA3);
    assert s3 == Overlapping(FRESH, Working(Persist), Some(4));
    var s4 := Go(s0, s3, CmpDo(4, Write(true)), A2AndA3);
    assert s4 == Overlapping(BUILT, Working(ReadAgain), Some(4));
  }

  lemma SecondHandsOn() returns (t: Sys)
    ensures Reach(Begin(), t, A2AndA3) && t.job == Some(BUILT) && 1 in t.cmp.live && t.cmp.live[1] == STALE
    ensures t.pay == Stage({6}, {}, None, map[]) && t.nextId == 7
  {
    SecondBuild();
    var s1 := Go(Begin(), Overlapping(BUILT, Working(ReadAgain), Some(4)), CmpDo(4, ReadOk(true)), A2AndA3);
    assert s1 == Overlapping(BUILT, Working(HandOff), Some(4));
    t := Go(Begin(), s1, CmpDo(4, EnqueueOk), A2AndA3);
  }

  /** The second worker's result is released, and then the first one, still at its stale read, resets
      the job. */
  lemma WithoutA1ReadyIsLost()
    ensures Leads(A2AndA3, Ready, Processing)
  {
    var s0 := Begin();
    var s1 := SecondHandsOn();
    var s2 := Go(s0, s1, PayQueue(Deliver(6)), A2AndA3);
    var s3 := Go(s0, s2, PayQueue(Acquire(7)), A2AndA3);
    var t := ReleaseFor(s3, 7);
    var u := OneMore(t, CmpDo(1, Write(true)), A2AndA3);
    assert Shows(t, Ready) && Shows(u, Processing);
  }

  lemma ReleaseFor(s: Sys, h: nat) returns (t: Sys)
    requires Reach(Begin(), s, A2AndA3) && s.job == Some(BUILT) && h in s.pay.live && s.pay.live[h].pc
      == Working(ReadPaidState)
    ensures Reach(Begin(), t, A2AndA3) && Shows(t, Ready) && t.cmp == s.cmp
  {
    BuiltReads(0);
    var s1 := Go(Begin(), s, PayDo(h, PayReadOk(0)), A2AndA3);
    t := Go(Begin(), s1, PayDo(h, PayWrite(true, 0, 0.0)), A2AndA3);
  }

  // ----- With all three -----

  /** The assumptions are not empty: jobs do get released under them. */
  lemma HonestRunsRelease()
    ensures Init(Begin()) && exists t :: Reach(Begin(), t, Honest) && Shows(t, Ready)
  {
    Publish(ApiDone, Honest);
    var t := FreeRelease(ApiDone, Honest);
  }

  /** And even under them Cancelled is not absorbing by itself: `fail` overwrites it. */
  lemma CancelledMayFail()
    ensures Leads(Honest, Cancelled, Failed)
  {
    var s := BuildBroken();
    var t := CancelIt(s);
    var u := OneMore(t, CmpDo(1, Write(true)), Honest);
    assert Shows(t, Cancelled) && Shows(u, Failed);
  }

  /** A worker is about to record that its job failed. */
  lemma BuildBroken() returns (s: Sys)
    ensures Reach(Begin(), s, Honest) && s == At(ApiDone, FRESH, GiveUp("no key column"))
  {
    Publish(ApiDone, Honest);
    StartComparing(ApiDone, Honest);
    BuildIt(ApiDone, Honest);
    s := Go(Begin(), At(ApiDone, FRESH, Build), CmpDo(1, BuildFails("no key column")), Honest);
    assert s.cmp == At(ApiDone, FRESH, GiveUp("no key column")).cmp;
  }

  lemma CancelIt(s: Sys) returns (t: Sys)
    requires Reach(Begin(), s, Honest) && s.job == Some(FRESH) && s.cancels == map[]
    ensures Reach(Begin(), t, Honest) && Shows(t, Cancelled) && t.cmp == s.cmp
  {
    var s1 := Go(Begin(), s, Request(CancelRead), Honest);
    t := Go(Begin(), s1, Request(CancelWrite(s.nextId, 7, true)), Honest);
  }

  // ----- The cancel answer -----

  lemma PricedGate()
    ensures Reach(Begin(), Gated(ApiDone, 1), Honest)
  {
    Publish(ApiDone, Honest);
    ReachGate(ApiDone, 1, Honest);
  }

  lemma OrderPlaced() returns (s: Sys)
    ensures Reach(Begin(), s, Honest) && s.job == Some(BUILT) && s.cancels == map[]
    ensures s.api.ApiDone? && Idle(s.cmp) && s.orders == [Order(1, "u")]
    ensures s.pay == InGate(ApiDone, Working(StoreOrder("r", 1, "u"))).pay
  {
    PricedGate();
    assert !IsSpace("u"[0]);
    s := Go(Begin(), Gated(ApiDone, 1), PayDo(6, OrderOk("u")), Honest);
    assert s.pay == InGate(ApiDone, Working(StoreOrder("r", 1, "u"))).pay;
  }

  /** An order was placed and recorded. */
  lemma AwaitPaymentOf1() returns (s: Sys)
    ensures Reach(Begin(), s, Honest) && s.codeStored && s.cancels == map[]
    ensures s.job == Some(BUILT.(status := AwaitingPayment, amountYuan := 0.01, codeURL := "u"))
  {
    var s1 := OrderPlaced();
    s := Go(Begin(), s1, PayDo(6, PayWrite(true, 0, 0.01)), Honest);
  }

  lemma CloseOrder() returns (s: Sys, c: nat)
    ensures Reach(Begin(), s, Honest) && s.codeStored && c in s.cancels && s.cancels[c] == Cancelling
    ensures s.job == Some(BUILT.(status := AwaitingPayment, amountYuan := 0.01, codeURL := "u"))
  {
    var s0 := AwaitPaymentOf1();
    c := s0.nextId;
    var s1 := Go(Begin(), s0, Request(CancelRead), Honest);
    s := Go(Begin(), s1, Request(CancelClose(c, true)), Honest);
  }

  /** The cancel handler closed the order, which had been paid by then, and the payment released the job. */
  lemma PaidBeforeCancel() returns (s: Sys, c: nat)
    ensures Reach(Begin(), s, Honest) && Shows(s, Ready) && RequestEnabled(s, CancelWrite(c, 9, true))
  {
    var s2;
    s2, c := CloseOrder();
    KeyIsTrimmed();
    assert Amount.AcceptedAt(0.01, 1.0, 1);
    var s3 := Go(Begin(), s2, Request(NotifyRead(1, true, 1.0)), Honest);
    s := Go(Begin(), s3, Request(NotifyWrite(s2.nextId, 8, true)), Honest);
  }

  /** The answer "cancelled" is given and the job is Ready, and stays so: the update took effect and found
      the job paid. */
  lemma CancelAnswerMayBeWrong()
    ensures exists t, c: nat ::
      && Reach(Begin(), t, Honest) && RequestEnabled(t, CancelWrite(c, 9, true))
      && Shows(RequestApply(t, CancelWrite(c, 9, true)), Ready)
  {
    var t, c := PaidBeforeCancel();
    ReachableReadyIsPaid(t);
    assert Shows(RequestApply(t, CancelWrite(c, 9, true)), Ready);
  }

  lemma ReachableReadyIsPaid(t: Sys)
    requires Reach(Begin(), t, Honest) && Shows(t, Ready)
    ensures t.job.value.paid
  {
    var steps :| Run(Begin(), steps, t, Honest);
    assert !IsSpace('r');
    InitIsClean(Begin());
    RunQuoted(Begin(), steps, t);
  }

  // ----- Lost jobs: one run for every kind of fault that may do harm (Harm has the condition) -----

  /** Nobody sees to the job, and it is at Processing with no result: by Abandonment.AbandonedIsFinal it will
      never be released and never fail. */
  ghost predicate Stranded(t: Sys) {
    Reach(Begin(), t, Honest) && Abandoned(t) && Shows(t, Processing) && Lost(t.job.value)
  }

  /** The first worker lets go of its lock and returns, and its entry is gone. */
  lemma Ends(s: Sys, out: Outcome) returns (t: Sys)
    requires Reach(Begin(), s, Honest) && s.api == ApiDone && s.job == Some(FRESH) && Idle(s.pay)
    requires s.cmp == Stage({}, if out == Ack then {0} else {}, Some(1), map[1 := Handler(0, Unlocking(out))])
    ensures Stranded(t)
  {
    var s1 := Go(Begin(), s, CmpQueue(Unlock(1, true)), Honest);
    assert s1.cmp.live == map[1 := Handler(0, Returned(out))];
    t := Go(Begin(), s1, CmpQueue(Finish(1, true)), Honest);
    assert t.cmp.live == map[] && t.cmp.pending == {};
    assert Blank(FRESH.resultKey) && Blank(FRESH.resultPath);
  }

  /** A worker that crashes leaves its lock behind; if the entry is claimed before the lock runs out, the
      claimer takes it for a duplicate and acknowledges it. */
  lemma CrashStrandsJob()
    ensures exists t :: Stranded(t)
  {
    var s2 := CrashAndClaim();
    var s3 := Go(Begin(), s2, CmpQueue(Acquire(4)), Honest);
    assert s3.cmp == Stage({}, {0}, Some(1), map[4 := Handler(0, Returned(Ack))]);
    var s4 := Go(Begin(), s3, CmpQueue(Finish(4, true)), Honest);
    assert s4.cmp == Stage({}, {}, Some(1), map[]);
    assert Stranded(s4);
  }

  lemma CrashAndClaim() returns (s: Sys)
    ensures Reach(Begin(), s, Honest)
    ensures s == Comparing(ApiDone).(cmp := Stage({}, {0}, Some(1), map[4 := Handler(0, Acquiring)]), nextId := 5)
  {
    Publish(ApiDone, Honest);
    StartComparing(ApiDone, Honest);
    var s1 := Go(Begin(), Comparing(ApiDone), CmpQueue(Crash(1)), Honest);
    assert s1.cmp == Stage({}, {0}, Some(1), map[]);
    s := Go(Begin(), s1, CmpQueue(Claim(0)), Honest);
    assert s.cmp == Stage({}, {0}, Some(1), map[4 := Handler(0, Acquiring)]);
  }

  /** The entry of a worker that is still at work is claimed, taken for a duplicate and acknowledged. */
  lemma DismissOwnEntry(w: CompareWork) returns (s: Sys)
    requires w == ReadJob || w == Reset
    ensures Reach(Begin(), s, Honest) && s.api == ApiDone && s.job == Some(FRESH) && Idle(s.pay)
    ensures s.cmp == Stage({}, {}, Some(1), map[1 := Handler(0, Working(w))])
  {
    var s0 := TakenUp(w);
    var h := s0.nextId;
    var s1 := Go(Begin(), s0, CmpQueue(Claim(0)), Honest);
    assert s1.cmp == Stage({}, {0}, Some(1), map[1 := Handler(0, Working(w)), h := Handler(0, Acquiring)]);
    var s2 := Go(Begin(), s1, CmpQueue(Acquire(h)), Honest);
    assert s2.cmp == Stage({}, {0}, Some(1), map[1 := Handler(0, Working(w)), h := Handler(0, Returned(Ack))]);
    s := Go(Begin(), s2, CmpQueue(Finish(h, true)), Honest);
    assert s.cmp.live == map[1 := Handler(0, Working(w))] && s.cmp.pending == {};
  }

  lemma TakenUp(w: CompareWork) returns (s: Sys)
    requires w == ReadJob || w == Reset
    ensures Reach(Begin(), s, Honest) && s.api == ApiDone && s.job == Some(FRESH) && Idle(s.pay) && s.nextId > 1
    ensures s.cmp == Stage({}, {0}, Some(1), map[1 := Handler(0, Working(w))])
  {
    Publish(ApiDone, Honest);
    StartComparing(ApiDone, Honest);
    if w == Reset {
      s := Comparing(ApiDone);
    } else {
      s := Acquired(ApiDone, Honest);
    }
  }

  /** The worker of such an entry crashes afterwards. */
  lemma CrashAfterDismissalStrandsJob()
    ensures exists t :: Stranded(t)
  {
    var s := DismissOwnEntry(Reset);
    var t := Go(Begin(), s, CmpQueue(Crash(1)), Honest);
    assert t.cmp.live == map[];
    assert Blank(FRESH.resultKey) && Blank(FRESH.resultPath);
    assert Stranded(t);
  }

  /** Or its read fails, and it returns in the belief that its entry stays pending. */
  lemma FailedReadAfterDismissalStrandsJob()
    ensures exists t :: Stranded(t)
  {
    var s := DismissOwnEntry(ReadJob);
    var s1 := Go(Begin(), s, CmpDo(1, ReadFails), Honest);
    assert s1.cmp == Stage({}, {}, Some(1), map[1 := Handler(0, Unlocking(Keep))]);
    var t := Ends(s1, Keep);
  }

  /** A panic is acknowledged like a success. */
  lemma PanicStrandsJob()
    ensures exists t :: Stranded(t)
  {
    var s := TakenUp(Reset);
    var s1 := Go(Begin(), s, CmpQueue(Panic(1)), Honest);
    assert s1.cmp == Stage({}, {0}, Some(1), map[1 := Handler(0, Unlocking(Ack))]);
    var t := Ends(s1, Ack);
  }

  /** So is a failure whose record was lost. */
  lemma LostFailureStrandsJob()
    ensures exists t :: Stranded(t)
  {
    var s1 := BuildBroken();
    var s2 := Go(Begin(), s1, CmpDo(1, Write(false)), Honest);
    assert s2.cmp == Stage({}, {0}, Some(1), map[1 := Handler(0, Unlocking(Ack))]);
    var t := Ends(s2, Ack);
  }

  /** An upload handler that dies between its two calls leaves a job that nobody was told of. */
  lemma UploadCrashStrandsJob()
    ensures exists t :: Stranded(t)
  {
    assert !IsSpace('r');
    assert Run(Begin(), [], Begin(), Honest);
    var s1 := Go(Begin(), Begin(), Api(Create("a", "b", true)), Honest);
    var t := Go(Begin(), s1, Api(ApiCrash), Honest);
    assert Blank(FRESH.resultKey) && Blank(FRESH.resultPath);
    assert Stranded(t);
  }

  /** The same if it lives on, but its enqueue call and the record of that failure are lost. */
  lemma LostUploadFailureStrandsJob()
    ensures exists t :: Stranded(t)
  {
    assert !IsSpace('r');
    assert Run(Begin(), [], Begin(), Honest);
    var s1 := Go(Begin(), Begin(), Api(Create("a", "b", true)), Honest);
    var s2 := Go(Begin(), s1, Api(EnqueueJob(false, false, "timeout")), Honest);
    var t := Go(Begin(), s2, Api(RecordFailure(false)), Honest);
    assert Blank(FRESH.resultKey) && Blank(FRESH.resultPath);
    assert Stranded(t);
  }

  /** The result of the update that records the result is ignored: if it is lost, the worker hands the job on
      all the same and its entry is acknowledged.  What it handed on waits for a result for ever. */
  lemma LostResultStrandsJob()
    ensures exists t :: Stranded(t) && 3 in t.pay.unread
  {
    Publish(ApiDone, Honest);
    StartComparing(ApiDone, Honest);
    BuildIt(ApiDone, Honest);
    var s1 := Go(Begin(), At(ApiDone, FRESH, Build), CmpDo(1, BuildOk), Honest);
    assert s1.cmp == At(ApiDone, FRESH, Persist).cmp;
    PersistUnseen();
    var t := HandOnUnseen(At(ApiDone, FRESH, HandOff));
  }

  lemma PersistUnseen()
    requires Reach(Begin(), At(ApiDone, FRESH, Persist), Honest)
    ensures Reach(Begin(), At(ApiDone, FRESH, HandOff), Honest)
  {
    var s1 := Go(Begin(), At(ApiDone, FRESH, Persist), CmpDo(1, Write(false)), Honest);
    assert s1.cmp == At(ApiDone, FRESH, ReadAgain).cmp;
    var s2 := Go(Begin(), s1, CmpDo(1, ReadOk(true)), Honest);
    assert s2.cmp == At(ApiDone, FRESH, HandOff).cmp;
  }

  lemma HandOnUnseen(s: Sys) returns (t: Sys)
    requires Reach(Begin(), s, Honest) && s == At(ApiDone, FRESH, HandOff)
    ensures Stranded(t) && 3 in t.pay.unread
  {
    var s1 := Go(Begin(), s, CmpDo(1, EnqueueOk), Honest);
    var s2 := Go(Begin(), s1, CmpQueue(Unlock(1, true)), Honest);
    assert s2.cmp == Stage({}, {0}, None, map[1 := Handler(0, Returned(Ack))]);
    t := Go(Begin(), s2, CmpQueue(Finish(1, true)), Honest);
    assert t.cmp == Stage({}, {}, None, map[]) && t.pay == Stage({3}, {}, None, map[]);
    assert Blank(FRESH.resultKey) && Blank(FRESH.resultPath);
  }

  // ----- Lost jobs with a result -----

  /** Nobody sees to the job, which has its result and is at Processing: by
      Abandonment.HonestlyAbandonedIsFinal it will never be released. */
  ghost predicate StrandedAtGate(t: Sys) {
    Reach(Begin(), t, Honest) && Abandoned(t) && Shows(t, Processing) && HasResult(t.job.value)
  }

  /** What the payment-worker was to record is lost, and its entry is acknowledged. */
  lemma GateWriteIsLost(s: Sys, w: PayWork) returns (t: Sys)
    requires Reach(Begin(), s, Honest) && s.api.ApiDone? && Idle(s.cmp) && s.job == Some(BUILT)
    requires s.pay == InGate(ApiDone, Working(w)).pay && (w.ReleaseFreeJob? || w.StoreOrder? || w.Reject?)
    requires w.StoreOrder? ==> w.fee == 1
    ensures StrandedAtGate(t) && t.orders == s.orders
  {
    KeyIsTrimmed();
    var s1 := Go(Begin(), s, PayDo(6, PayWrite(false, 0, 0.01)), Honest);
    assert s1.pay == InGate(ApiDone, Unlocking(Ack)).pay;
    t := LeaveGate(s1);
  }

  lemma LeaveGate(s: Sys) returns (t: Sys)
    requires Reach(Begin(), s, Honest) && s.pay == InGate(ApiDone, Unlocking(Ack)).pay
    ensures Reach(Begin(), t, Honest) && t == s.(pay := EmptyStage(), nextId := t.nextId)
  {
    var s1 := Go(Begin(), s, PayQueue(Unlock(6, true)), Honest);
    assert s1.pay == Stage({}, {3}, None, map[6 := Handler(3, Returned(Ack))]);
    t := Go(Begin(), s1, PayQueue(Finish(6, true)), Honest);
    assert t.pay == EmptyStage();
  }

  lemma LostReleaseStrandsJob()
    ensures exists t :: StrandedAtGate(t)
  {
    Publish(ApiDone, Honest);
    ReachGate(ApiDone, 0, Honest);
    var t := GateWriteIsLost(Gated(ApiDone, 0), ReleaseFreeJob("r"));
  }

  /** An order was placed, and the user never sees its code. */
  lemma LostOrderStrandsJob()
    ensures exists t :: StrandedAtGate(t) && t.orders == [Order(1, "u")]
  {
    var s := OrderPlaced();
    var t := GateWriteIsLost(s, StoreOrder("r", 1, "u"));
  }

  lemma LostRejectionStrandsJob()
    ensures exists t :: StrandedAtGate(t)
  {
    PricedGate();
    var s := Go(Begin(), Gated(ApiDone, 1), PayDo(6, OrderFails("refused")), Honest);
    assert s.pay == InGate(ApiDone, Working(REFUSED)).pay;
    var t := GateWriteIsLost(s, REFUSED);
  }

  // ----- A crash that is survived -----

  /** A payment-worker crashes in its critical section; its lock runs out, its entry is claimed, and the job
      is released: the faults that the recovery theorem allows include crashes. */
  lemma CrashIsSurvived()
    ensures exists t :: Reach(Begin(), t, Recoverable) && Shows(t, Ready)
  {
    var s2 := TakenUpAgain();
    BuiltReads(0);
    var s3 := Go(Begin(), s2, PayDo(10, PayReadOk(0)), Recoverable);
    assert s3.pay.live[10] == Handler(3, Working(ReleaseFreeJob("r")));
    var s4 := Go(Begin(), s3, PayDo(10, PayWrite(true, 0, 0.0)), Recoverable);
  }

  lemma TakenUpAgain() returns (s: Sys)
    ensures Reach(Begin(), s, Recoverable) && s.job == Some(BUILT)
    ensures s.pay == Stage({}, {3}, Some(10), map[10 := Handler(3, Working(ReadPaidState))])
  {
    var s0 := CrashInGate();
    var s1 := Go(Begin(), s0, PayQueue(Claim(3)), Recoverable);
    assert s1.pay == Stage({}, {3}, None, map[10 := Handler(3, Acquiring)]);
    s := Go(Begin(), s1, PayQueue(Acquire(10)), Recoverable);
    assert s.pay == Stage({}, {3}, Some(10), map[10 := Handler(3, Working(ReadPaidState))]);
  }

  lemma FreeGate()
    ensures Reach(Begin(), Gated(ApiDone, 0), Recoverable)
  {
    Publish(ApiDone, Recoverable);
    ReachGate(ApiDone, 0, Recoverable);
  }

  lemma CrashInGate() returns (s: Sys)
    ensures Reach(Begin(), s, Recoverable) && s.job == Some(BUILT) && s.nextId == 10
    ensures s.pay == Stage({}, {3}, None, map[])
  {
    FreeGate();
    EntryWaits();
    var s1 := Go(Begin(), Gated(ApiDone, 0), PayQueue(Crash(6)), Recoverable);
    assert s1.pay == Stage({}, {3}, Some(6), map[]);
    s := Go(Begin(), s1, PayQueue(Lapse), Recoverable);
  }

  lemma EntryWaits()
    ensures Recoverable(Gated(ApiDone, 0), PayQueue(Crash(6)))
  {
    assert Waiting(Gated(ApiDone, 0).pay, 3);
  }
}
