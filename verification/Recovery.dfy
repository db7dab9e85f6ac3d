/** Crashes, panics and lost calls.  A job survives them as long as somebody or some entry that sees to it
    remains.  `Harmless` tests this before the step, for every step of every actor; Harm shows that the
    test rejects nothing that it could admit. */
module Recovery {
  import opened Text
  import opened Domain
  import opened JobUpdates
  import opened Pipeline
  import opened Safety
  import opened Exclusion
  import opened Finality
  import opened Progress
  import opened Abandonment

  // ----- Entries -----

  predicate Acknowledging<W>(pc: Pc<W>) {
    (pc.Unlocking? || pc.Returned?) && pc.out == Ack
  }

  /** Some handler of the entry has returned, or is about to return, with an acknowledgement. */
  predicate Doomed<W>(st: Stage<W>, m: nat) {
    exists h :: h in st.live && st.live[h].msg == m && Acknowledging(st.live[h].pc)
  }

  /** The entry is pending and will stay so: it can be claimed. */
  predicate Waiting<W>(st: Stage<W>, m: nat) {
    m in st.pending && !Doomed(st, m)
  }

  /** There is something to deliver or to claim, or somebody at work. */
  predicate Active<W>(st: Stage<W>) {
    || st.unread != {}
    || (exists m :: m in st.pending && Waiting(st, m))
    || (exists h :: h in st.live && st.live[h].pc.Working?)
  }

  /** Entry ids are never reused, and nobody handles an entry before it is delivered. */
  predicate Apart<W>(st: Stage<W>, n: nat) {
    && (forall m :: m in st.unread ==> m < n && m !in st.pending)
    && (forall m :: m in st.pending ==> m < n)
    && (forall h :: h in st.live ==> st.live[h].msg < n && st.live[h].msg !in st.unread)
  }

  /** All that the stage has ever been handed is entry `m`. */
  predicate Single<W>(st: Stage<W>, m: nat) {
    st.unread <= {m} && st.pending <= {m} && forall h :: h in st.live ==> st.live[h].msg == m
  }

  // ----- The faults that lose nothing -----

  /** There is something to do, or somebody at work, besides handler `h` and its entry. */
  predicate OthersRemain<W>(st: Stage<W>, h: nat)
    requires h in st.live
  {
    || st.unread != {}
    || (exists m :: m in st.pending && m != st.live[h].msg && Waiting(st, m))
    || (exists k :: k in st.live && k != h && st.live[k].pc.Working?)
  }

  /** A handler may give up its work if its own entry is waiting, or if it is not the last. */
  predicate Returnable<W>(st: Stage<W>, h: nat) {
    h in st.live && st.live[h].pc.Working? ==> Waiting(st, st.live[h].msg) || OthersRemain(st, h)
  }

  /** A handler may be dismissed because the lock is held if something or somebody else remains: as a rule
      the lock's holder, at work.  The same goes for a panic, which is acknowledged, too. */
  predicate QueueKeepsEntries<W>(st: Stage<W>, op: QueueOp) {
    match op
    case Acquire(h) => h in st.live && st.lock.Some? ==> OthersRemain(st, h)
    case Crash(h) => Returnable(st, h)
    case Panic(h) => h in st.live && st.live[h].pc.Working? ==> OthersRemain(st, h)
    case _ => true
  }

  /** A compare-worker works alone on the only entry there is: what it fails to write nobody else will, but
      for "mark as processing", which nothing depends on.  An enqueue call that failed may have succeeded. */
  predicate CompareKeepsEntry(st: Stage<CompareWork>, h: nat, act: CompareAct) {
    match act
    case ReadFails => Returnable(st, h)
    case EnqueueFails(added) => added || Returnable(st, h)
    case Write(effect) => effect || (h in st.live && st.live[h].pc == Working(Reset))
    case _ => true
  }

  predicate PayKeepsEntry(st: Stage<PayWork>, h: nat, act: PayAct) {
    match act
    case PayReadFails => Returnable(st, h)
    case PayWrite(effect, _, _) => effect || (h in st.live && OthersRemain(st, h))
    case _ => true
  }

  predicate AtProcessing(s: Sys) {
    StatusIn(s, {Processing})
  }

  /** The other stage sees to the job. */
  predicate GateSeesToIt(s: Sys) {
    NeedsGate(s) && Active(s.pay)
  }

  predicate ApiKeepsJob(s: Sys, a: ApiAct) {
    match a
    case Create(_, _, ok) => ok
    case EnqueueJob(_, _, _) => true
    case RecordFailure(effect) => effect || !AtProcessing(s)
    case ApiCrash => s.job.Some? && !AtProcessing(s)
  }

  /** The step leaves somebody or some entry that sees to the job, if the job still has need of it. */
  predicate Harmless(s: Sys, step: Step) {
    match step
    case Api(a) => ApiKeepsJob(s, a)
    case CmpQueue(op) => !AtProcessing(s) || GateSeesToIt(s) || QueueKeepsEntries(s.cmp, op)
    case PayQueue(op) => !NeedsGate(s) || Active(s.cmp) || QueueKeepsEntries(s.pay, op)
    case CmpDo(h, act) => !AtProcessing(s) || GateSeesToIt(s) || CompareKeepsEntry(s.cmp, h, act)
    case PayDo(h, act) => !NeedsGate(s) || Active(s.cmp) || PayKeepsEntry(s.pay, h, act)
    case Request(_) => true
  }

  /** Under A1 and A3 handlers may crash and panic; lock, read, write, enqueue, release and acknowledge calls
      may fail; entries may be delivered and claimed at will: as long as no step does harm. */
  predicate Recoverable(s: Sys, step: Step) {
    Orderly(s, step) && Harmless(s, step)
  }

  lemma RecoverableIsLossless(s: Sys, step: Step)
    requires Safe(s) && Recoverable(s, step)
    ensures Lossless(s, step)
  {
  }

  // ----- One stage -----

  lemma QueueKeepsApart<W>(st: Stage<W>, op: QueueOp, id: nat, first: W)
    requires QueueEnabled(st, op) && Apart(st, id)
    ensures Apart(QueueApply(st, op, id, first), id + 1)
  {
  }

  lemma QueueKeepsSingle<W>(st: Stage<W>, op: QueueOp, id: nat, first: W, m: nat)
    requires QueueEnabled(st, op) && Single(st, m)
    ensures Single(QueueApply(st, op, id, first), m)
  {
  }

  /** The handlers that the operation does not touch stay as they are; only an acknowledgement that was due
      already takes an entry away. */
  lemma QueueKeepsWaiting<W>(st: Stage<W>, op: QueueOp, id: nat, first: W, m: nat)
    requires QueueEnabled(st, op) && !op.Panic? && Waiting(st, m)
    requires op.Acquire? && st.lock.Some? ==> st.live[op.h].msg != m
    ensures Waiting(QueueApply(st, op, id, first), m)
  {
    var after := QueueApply(st, op, id, first);
    forall h | h in after.live && after.live[h].msg == m
      ensures !Acknowledging(after.live[h].pc)
    {
      if h in st.live && st.live[h].msg == m {
        assert !Acknowledging(st.live[h].pc);
      }
    }
  }

  /** Something or somebody else is still there when the handler is gone, dismissed or has given up. */
  lemma OthersStay<W>(st: Stage<W>, h: nat, after: Stage<W>)
    requires h in st.live && OthersRemain(st, h)
    requires after.unread == st.unread && after.pending == st.pending
    requires forall k :: k in st.live && k != h ==> k in after.live && after.live[k] == st.live[k]
    requires forall k :: k in after.live && k != h ==> k in st.live
    requires h in after.live ==> after.live[h].msg == st.live[h].msg
    ensures Active(after)
  {
    if st.unread == {} {
      if m :| m in st.pending && m != st.live[h].msg && Waiting(st, m) {
        forall k | k in after.live && after.live[k].msg == m
          ensures !Acknowledging(after.live[k].pc)
        {
          assert k in st.live && st.live[k] == after.live[k];
        }
        assert m in after.pending && Waiting(after, m);
      } else {
        var k :| k in st.live && k != h && st.live[k].pc.Working?;
        assert k in after.live && after.live[k].pc.Working?;
      }
    }
  }

  /** Nothing is left when the last handler's entry goes with it. */
  lemma NothingStays<W>(st: Stage<W>, h: nat, after: Stage<W>)
    requires h in st.live && !OthersRemain(st, h)
    requires after.unread == st.unread && after.pending == st.pending
    requires forall k :: k in st.live && k != h ==> k in after.live && after.live[k] == st.live[k]
    requires forall k :: k in after.live && k != h ==> k in st.live
    requires h in after.live ==> after.live[h].msg == st.live[h].msg && !after.live[h].pc.Working?
    requires Waiting(st, st.live[h].msg) ==> h in after.live && Acknowledging(after.live[h].pc)
    requires Acknowledging(st.live[h].pc) ==> h in after.live && Acknowledging(after.live[h].pc)
    ensures !Active(after)
  {
    forall m | m in after.pending
      ensures Doomed(after, m)
    {
      if Doomed(st, m) {
        var k :| k in st.live && st.live[k].msg == m && Acknowledging(st.live[k].pc);
        assert k in after.live && after.live[k].msg == m && Acknowledging(after.live[k].pc);
      } else {
        assert m == st.live[h].msg && after.live[h].msg == m;
      }
    }
  }

  lemma DismissalIff<W>(st: Stage<W>, h: nat, id: nat, first: W)
    requires QueueEnabled(st, Acquire(h))
    ensures Active(QueueApply(st, Acquire(h), id, first)) <==> QueueKeepsEntries(st, Acquire(h))
  {
    var after := QueueApply(st, Acquire(h), id, first);
    if st.lock.None? {
      assert h in after.live && after.live[h].pc.Working?;
    } else if OthersRemain(st, h) {
      OthersStay(st, h, after);
    } else {
      NothingStays(st, h, after);
    }
  }

  lemma PanicIff<W>(st: Stage<W>, h: nat)
    requires h in st.live && st.live[h].pc.Working?
    ensures Active(Moved(st, h, Unlocking(Ack))) <==> OthersRemain(st, h)
  {
    if OthersRemain(st, h) {
      OthersStay(st, h, Moved(st, h, Unlocking(Ack)));
    } else {
      NothingStays(st, h, Moved(st, h, Unlocking(Ack)));
    }
  }

  /** The entry of a handler that is at work waits on when the handler is gone or gives up. */
  lemma EntryWaitsOn<W>(st: Stage<W>, h: nat, after: Stage<W>)
    requires h in st.live && st.live[h].pc.Working? && Waiting(st, st.live[h].msg)
    requires after.pending == st.pending
    requires forall k :: k in after.live && k != h ==> k in st.live && after.live[k] == st.live[k]
    requires h in after.live ==> !Acknowledging(after.live[h].pc)
    ensures Active(after)
  {
    assert Waiting(after, st.live[h].msg);
  }

  lemma CrashIff<W>(st: Stage<W>, h: nat)
    requires h in st.live && st.live[h].pc.Working?
    ensures Active(Removed(st, h)) <==> Returnable(st, h)
  {
    if Waiting(st, st.live[h].msg) {
      EntryWaitsOn(st, h, Removed(st, h));
    } else if OthersRemain(st, h) {
      OthersStay(st, h, Removed(st, h));
    } else {
      NothingStays(st, h, Removed(st, h));
    }
  }

  /** A handler that gives up leaves its entry waiting, or is not the last. */
  lemma GivingUpKeepsActive<W>(st: Stage<W>, h: nat)
    requires h in st.live && st.live[h].pc.Working?
    ensures Active(Moved(st, h, Unlocking(Keep))) <==> Returnable(st, h)
  {
    if Waiting(st, st.live[h].msg) {
      EntryWaitsOn(st, h, Moved(st, h, Unlocking(Keep)));
    } else if OthersRemain(st, h) {
      OthersStay(st, h, Moved(st, h, Unlocking(Keep)));
    } else {
      NothingStays(st, h, Moved(st, h, Unlocking(Keep)));
    }
  }

  /** No other operation takes work out of sight. */
  lemma OthersKeepActive<W>(st: Stage<W>, op: QueueOp, id: nat, first: W)
    requires QueueEnabled(st, op) && Apart(st, id) && Numbered(st, id) && Active(st)
    requires !op.Acquire? && !op.Panic? && (op.Crash? ==> !st.live[op.h].pc.Working?)
    ensures Active(QueueApply(st, op, id, first))
  {
    var after := QueueApply(st, op, id, first);
    if op.Deliver? {
      assert Waiting(after, op.m);
    } else if st.unread != {} {
      assert after.unread == st.unread;
    } else if m :| m in st.pending && Waiting(st, m) {
      QueueKeepsWaiting(st, op, id, first, m);
      assert m in after.pending && Waiting(after, m);
    } else {
      var h :| h in st.live && st.live[h].pc.Working?;
      assert after.live[h] == st.live[h];
    }
  }

  /** The condition is exact: an operation leaves something to deliver or to claim, or somebody at work, if
      and only if it holds. */
  lemma EntriesKeptIff<W>(st: Stage<W>, op: QueueOp, id: nat, first: W)
    requires QueueEnabled(st, op) && Apart(st, id) && Numbered(st, id) && Active(st)
    ensures Active(QueueApply(st, op, id, first)) <==> QueueKeepsEntries(st, op)
  {
    match op
    case Acquire(h) => DismissalIff(st, h, id, first);
    case Panic(h) => PanicIff(st, h);
    case Crash(h) =>
      if st.live[h].pc.Working? {
        CrashIff(st, h);
      } else {
        OthersKeepActive(st, op, id, first);
      }
    case _ => OthersKeepActive(st, op, id, first);
  }

  lemma WorkingOnIsActive<W>(st: Stage<W>, h: nat, pc: Pc<W>)
    requires h in st.live && pc.Working?
    ensures Active(Moved(st, h, pc))
  {
    assert h in Moved(st, h, pc).live && Moved(st, h, pc).live[h].pc.Working?;
  }

  // ----- The pipeline -----

  /** A job that needs its result, or the payment gate, has somebody or some entry that sees to it. */
  predicate Attended(s: Sys) {
    && (s.api.ApiDone? && NeedsResult(s) ==> Active(s.cmp))
    && (NeedsGate(s) ==> Active(s.cmp) || Active(s.pay))
  }

  ghost predicate Kept(s: Sys) {
    && Sound(s) && Apart(s.cmp, s.nextId) && Apart(s.pay, s.nextId) && Attended(s)
    && exists m :: Single(s.cmp, m)
  }

  lemma ApartLater<W>(st: Stage<W>, n: nat)
    requires Apart(st, n)
    ensures Apart(st, n + 1) && Apart(Enqueued(st, n), n + 1)
  {
  }

  lemma CompareQueueKept(s: Sys, op: QueueOp)
    requires Kept(s) && QueueEnabled(s.cmp, op) && Recoverable(s, CmpQueue(op))
    ensures Kept(s.(cmp := QueueApply(s.cmp, op, s.nextId, ReadJob), nextId := s.nextId + 1))
  {
    CompareQueueSound(s, op);
    QueueKeepsApart(s.cmp, op, s.nextId, ReadJob);
    var m :| Single(s.cmp, m);
    QueueKeepsSingle(s.cmp, op, s.nextId, ReadJob, m);
    if Active(s.cmp) {
      EntriesKeptIff(s.cmp, op, s.nextId, ReadJob);
    }
    KeptWithCompare(s, QueueApply(s.cmp, op, s.nextId, ReadJob), m);
  }

  lemma KeptWithCompare(s: Sys, st: Stage<CompareWork>, m: nat)
    requires Kept(s) && Sound(s.(cmp := st, nextId := s.nextId + 1)) && Apart(st, s.nextId + 1) && Single(st, m)
    requires AtProcessing(s) && Active(s.cmp) ==> Active(st) || GateSeesToIt(s)
    ensures Kept(s.(cmp := st, nextId := s.nextId + 1))
  {
    ApartLater(s.pay, s.nextId);
  }

  lemma PayQueueKept(s: Sys, op: QueueOp)
    requires Kept(s) && QueueEnabled(s.pay, op) && Recoverable(s, PayQueue(op))
    ensures Kept(s.(pay := QueueApply(s.pay, op, s.nextId, ReadPaidState), nextId := s.nextId + 1))
  {
    PayQueueSound(s, op);
    QueueKeepsApart(s.pay, op, s.nextId, ReadPaidState);
    if Active(s.pay) {
      EntriesKeptIff(s.pay, op, s.nextId, ReadPaidState);
    }
    KeptWithPay(s, QueueApply(s.pay, op, s.nextId, ReadPaidState));
  }

  lemma KeptWithPay(s: Sys, st: Stage<PayWork>)
    requires Kept(s) && Sound(s.(pay := st, nextId := s.nextId + 1)) && Apart(st, s.nextId + 1)
    requires NeedsGate(s) && Active(s.pay) ==> Active(st) || Active(s.cmp)
    ensures Kept(s.(pay := st, nextId := s.nextId + 1))
  {
    ApartLater(s.cmp, s.nextId);
  }

  lemma CompareKeepsEntryIf(s: Sys, h: nat, act: CompareAct)
    requires CompareEnabled(s, h, act)
    ensures CompareApply(s, h, act).cmp.live[h].pc == Unlocking(Keep) ==>
      (act.ReadFails? || act.EnqueueFails?) && CompareApply(s, h, act).job == s.job
  {
  }

  /** A worker that keeps its entry leaves it waiting, or knows the payment gate at work. */
  lemma CompareGivesUp(s: Sys, h: nat, act: CompareAct)
    requires Kept(s) && CompareEnabled(s, h, act) && Recoverable(s, CmpDo(h, act))
    requires CompareApply(s, h, act).cmp.live[h].pc == Unlocking(Keep)
    ensures var t := CompareApply(s, h, act);
      AtProcessing(t) ==> Active(t.cmp) || (NeedsGate(t) && Active(t.pay))
  {
    CompareMovesOnly(s, h, act);
    CompareKeepsEntryIf(s, h, act);
    GivingUpKeepsActive(s.cmp, h);
    assert CompareEarned(s.cmp.live[h].pc, s);
  }

  /** A worker that acknowledges has handed the job on, or the job has no need of it. */
  lemma CompareAcks(s: Sys, h: nat, act: CompareAct)
    requires Kept(s) && CompareEnabled(s, h, act) && Recoverable(s, CmpDo(h, act))
    requires CompareApply(s, h, act).cmp.live[h].pc == Unlocking(Ack)
    ensures var t := CompareApply(s, h, act);
      AtProcessing(t) ==> NeedsGate(t) && Active(t.pay)
  {
    KeyNotBlank(s);
    assert CompareEarned(s.cmp.live[h].pc, s);
  }

  lemma CompareKept(s: Sys, h: nat, act: CompareAct)
    requires Kept(s) && CompareEnabled(s, h, act) && Recoverable(s, CmpDo(h, act))
    ensures Kept(CompareApply(s, h, act))
  {
    RecoverableIsLossless(s, CmpDo(h, act));
    CompareSound(s, h, act);
    CompareMovesOnly(s, h, act);
    var t := CompareApply(s, h, act);
    match t.cmp.live[h].pc {
      case Working(_) => WorkingOnIsActive(s.cmp, h, t.cmp.live[h].pc);
      case Unlocking(Keep) => CompareGivesUp(s, h, act);
      case Unlocking(Ack) => CompareAcks(s, h, act);
    }
    KeptByCompare(s, h, t);
  }

  lemma KeptByCompare(s: Sys, h: nat, t: Sys)
    requires Kept(s) && Sound(t) && h in s.cmp.live && h in t.cmp.live
    requires t.cmp == Moved(s.cmp, h, t.cmp.live[h].pc) && (t.nextId == s.nextId || t.nextId == s.nextId + 1)
    requires t.pay == s.pay || (t.pay == Enqueued(s.pay, s.nextId) && t.nextId == s.nextId + 1)
    requires AtProcessing(t) ==> Active(t.cmp) || (NeedsGate(t) && Active(t.pay))
    ensures Kept(t)
  {
    ApartLater(s.cmp, s.nextId);
    ApartLater(s.pay, s.nextId);
    var m :| Single(s.cmp, m);
    assert Single(t.cmp, m);
  }

  /** A payment-worker keeps its entry only if its read failed: the result it looks for is there. */
  lemma PayKeepsEntryIf(s: Sys, h: nat, act: PayAct)
    requires Sound(s) && PayEnabled(s, h, act)
    ensures PayApply(s, h, act).pay.live[h].pc == Unlocking(Keep) ==>
      act.PayReadFails? && PayApply(s, h, act).job == s.job
  {
    if act.PayReadOk? {
      PayReadEarns(s, h, act.fee);
      ReadDecides(s.job, act.fee);
    }
  }

  lemma PayGivesUp(s: Sys, h: nat, act: PayAct)
    requires Kept(s) && PayEnabled(s, h, act) && Recoverable(s, PayDo(h, act))
    requires PayApply(s, h, act).pay.live[h].pc == Unlocking(Keep)
    ensures var t := PayApply(s, h, act); NeedsGate(t) ==> Active(t.cmp) || Active(t.pay)
  {
    PayMovesOnly(s, h, act);
    PayKeepsEntryIf(s, h, act);
    GivingUpKeepsActive(s.pay, h);
  }

  /** A worker that acknowledges has moved the job on, or others remain. */
  lemma PayAcks(s: Sys, h: nat, act: PayAct)
    requires Kept(s) && PayEnabled(s, h, act) && Recoverable(s, PayDo(h, act))
    requires PayApply(s, h, act).pay.live[h].pc == Unlocking(Ack)
    ensures var t := PayApply(s, h, act); NeedsGate(t) ==> Active(t.cmp) || Active(t.pay)
  {
    PayMovesOnly(s, h, act);
    PanicIff(s.pay, h);
    assert PayEarned(s.pay.live[h].pc, s);
    if act.PayReadOk? {
      ReadDecides(s.job, act.fee);
    } else {
      assert SafePayWork(s.pay.live[h].pc.w, s);
    }
  }

  lemma PayKept(s: Sys, h: nat, act: PayAct)
    requires Kept(s) && PayEnabled(s, h, act) && Recoverable(s, PayDo(h, act))
    ensures Kept(PayApply(s, h, act))
  {
    PaySound(s, h, act);
    Milestones(s, PayDo(h, act));
    PayMovesOnly(s, h, act);
    var t := PayApply(s, h, act);
    match t.pay.live[h].pc {
      case Working(_) => WorkingOnIsActive(s.pay, h, t.pay.live[h].pc);
      case Unlocking(Keep) => PayGivesUp(s, h, act);
      case Unlocking(Ack) => PayAcks(s, h, act);
    }
    KeptByPay(s, h, t);
  }

  lemma KeptByPay(s: Sys, h: nat, t: Sys)
    requires Kept(s) && Sound(t) && Keeps(s, t) && h in s.pay.live && h in t.pay.live
    requires t.cmp == s.cmp && t.api == s.api && t.nextId == s.nextId && t.pay == Moved(s.pay, h, t.pay.live[h].pc)
    requires NeedsGate(t) ==> Active(t.cmp) || Active(t.pay)
    ensures Kept(t)
  {
  }

  lemma ApiKept(s: Sys, a: ApiAct)
    requires Kept(s) && ApiEnabled(s, a) && Recoverable(s, Api(a))
    ensures Kept(ApiApply(s, a))
  {
    RecoverableIsLossless(s, Api(a));
    StepSound(s, Api(a));
    ApartLater(s.cmp, s.nextId);
    ApartLater(s.pay, s.nextId);
    assert Single(ApiApply(s, a).cmp, s.nextId);
  }

  predicate SameKey(j: Option<Job>, k: Option<Job>) {
    j.Some? == k.Some? && (j.Some? ==> j.value.resultKey == k.value.resultKey)
  }

  /** Requests do not touch the result. */
  lemma RequestFindsKey(s: Sys, r: RequestAct)
    requires RequestEnabled(s, r)
    ensures SameKey(s.job, RequestApply(s, r).job)
  {
  }

  lemma RequestKept(s: Sys, r: RequestAct)
    requires Kept(s) && RequestEnabled(s, r) && Recoverable(s, Request(r))
    ensures Kept(RequestApply(s, r))
  {
    RequestSound(s, r);
    Milestones(s, Request(r));
    RequestMovesOnly(s, r);
    RequestFindsKey(s, r);
    KeptByNone(s, RequestApply(s, r));
  }

  lemma KeptByNone(s: Sys, t: Sys)
    requires Kept(s) && Sound(t) && Keeps(s, t) && SameKey(s.job, t.job)
    requires t.cmp == s.cmp && t.pay == s.pay && t.api == s.api && (t.nextId == s.nextId || t.nextId == s.nextId + 1)
    ensures Kept(t)
  {
    ApartLater(s.cmp, s.nextId);
    ApartLater(s.pay, s.nextId);
  }

  lemma QueueStepKept(s: Sys, step: Step)
    requires Kept(s) && Enabled(s, step) && Recoverable(s, step) && (step.CmpQueue? || step.PayQueue?)
    ensures Kept(Apply(s, step))
  {
    if step.CmpQueue? {
      CompareQueueKept(s, step.op);
    } else {
      PayQueueKept(s, step.op);
    }
  }

  lemma WorkerStepKept(s: Sys, step: Step)
    requires Kept(s) && Enabled(s, step) && Recoverable(s, step) && (step.CmpDo? || step.PayDo?)
    ensures Kept(Apply(s, step))
  {
    match step
    case CmpDo(h, act) => CompareKept(s, h, act);
    case PayDo(h, act) => PayKept(s, h, act);
  }

  lemma StepKept(s: Sys, step: Step)
    requires Kept(s) && Enabled(s, step) && Recoverable(s, step)
    ensures Kept(Apply(s, step))
  {
    match step
    case Api(a) => ApiKept(s, a);
    case Request(r) => RequestKept(s, r);
    case CmpQueue(_) => QueueStepKept(s, step);
    case PayQueue(_) => QueueStepKept(s, step);
    case _ => WorkerStepKept(s, step);
  }

  lemma {:induction false} RunKept(s: Sys, steps: seq<Step>, t: Sys)
    requires Kept(s) && Run(s, steps, t, Recoverable)
    ensures Kept(t)
    decreases |steps|
  {
    if steps != [] {
      StepKept(s, steps[0]);
      RunKept(Apply(s, steps[0]), steps[1..], t);
    }
  }

  lemma InitIsKept(s: Sys)
    requires Init(s)
    ensures Kept(s)
  {
    InitIsClean(s);
    assert Single(s.cmp, 0);
  }

  /** An abandoned job has no need of anybody. */
  lemma KeptNotStranded(s: Sys)
    requires Kept(s) && Abandoned(s)
    ensures s.job.Some? && !AtProcessing(s)
  {
    KeyNotBlank(s);
  }

  /** No job is lost: whatever crashes, panics and fails on the way, as long as no step does harm, when nobody
      sees to the job any more it is Ready, Failed, Cancelled, or awaits a payment it can be paid with. */
  lemma NoJobIsLost(s: Sys, steps: seq<Step>, t: Sys)
    requires Init(s) && Run(s, steps, t, Recoverable) && Abandoned(t)
    ensures t.job.Some?
    ensures
      || t.job.value.status in {Ready, Failed, Cancelled}
      || (t.job.value.status == AwaitingPayment && !Blank(t.job.value.codeURL) && !t.job.value.paid)
    ensures t.job.value.paid ==> t.job.value.status in {Ready, Failed, Cancelled}
  {
    InitIsKept(s);
    RunKept(s, steps, t);
    KeptNotStranded(t);
  }

  // ----- Runs without faults are among them -----

  /** Whoever is about to return from the compare stage has handed the job on. */
  predicate HandedOn(s: Sys) {
    forall h :: h in s.cmp.live && s.cmp.live[h].pc == Unlocking(Ack) && NeedsGate(s) ==> Active(s.pay)
  }

  /** The holder of a lock is at work, or has earned its acknowledgement. */
  lemma HolderRemains<W>(st: Stage<W>, op: QueueOp)
    requires QueueEnabled(st, op) && QueueWorks(st, op) && Tidy(st)
    ensures QueueKeepsEntries(st, op) || exists k :: k in st.live && st.live[k].pc == Unlocking(Ack)
  {
    if op.Acquire? && st.lock.Some? {
      var k := st.lock.value;
      assert k in st.live && k != op.h && Critical(st.live[k].pc);
    }
  }

  lemma FaultFreeIsRecoverable(s: Sys, step: Step)
    requires Kept(s) && Steady(s) && HandedOn(s) && Enabled(s, step) && FaultFree(s, step)
    ensures Recoverable(s, step)
    ensures step.PayQueue? && NeedsGate(s) ==> QueueKeepsEntries(s.pay, step.op)
  {
    FaultFreeIsLossless(s, step);
    match step
    case CmpQueue(op) => HolderRemains(s.cmp, op);
    case PayQueue(op) => HolderRemains(s.pay, op);
    case _ =>
  }

  lemma StaysHandedOn(s: Sys, step: Step)
    requires Kept(s) && Steady(s) && HandedOn(s) && Enabled(s, step) && FaultFree(s, step)
    ensures HandedOn(Apply(s, step))
  {
    FaultFreeIsRecoverable(s, step);
    match step
    case CmpDo(h, act) =>
      CompareMovesOnly(s, h, act);
      if CompareApply(s, h, act).cmp.live[h].pc == Unlocking(Ack) {
        CompareAcks(s, h, act);
      }
    case PayDo(h, act) => GateStaysActive(s, h, act);
    case CmpQueue(op) => QueueEarnsNoAck(s.cmp, op, s.nextId, ReadJob);
    case PayQueue(op) =>
      if NeedsGate(s) && Active(s.pay) {
        EntriesKeptIff(s.pay, op, s.nextId, ReadPaidState);
      }
    case Request(r) =>
      Milestones(s, step);
      RequestMovesOnly(s, r);
      RequestFindsKey(s, r);
    case Api(_) =>
  }

  lemma GateStaysActive(s: Sys, h: nat, act: PayAct)
    requires Steady(s) && PayEnabled(s, h, act) && FaultFree(s, PayDo(h, act))
    ensures PayApply(s, h, act).cmp == s.cmp && (NeedsGate(PayApply(s, h, act)) ==> Active(PayApply(s, h, act).pay))
  {
    PayStepSteady(s, h, act);
    PayMovesOnly(s, h, act);
    var t := PayApply(s, h, act);
    if t.pay.live[h].pc.Working? {
      WorkingOnIsActive(s.pay, h, t.pay.live[h].pc);
    }
  }

  lemma {:induction false} RunHandedOn(s: Sys, steps: seq<Step>, t: Sys)
    requires Kept(s) && Steady(s) && HandedOn(s) && Run(s, steps, t, FaultFree)
    ensures Run(s, steps, t, Recoverable)
    decreases |steps|
  {
    if steps != [] {
      FaultFreeIsRecoverable(s, steps[0]);
      StepKept(s, steps[0]);
      StepSteady(s, steps[0]);
      StaysHandedOn(s, steps[0]);
      RunHandedOn(Apply(s, steps[0]), steps[1..], t);
    }
  }

  /** Every run without faults is a recoverable one, although it may dismiss any number of duplicates. */
  lemma FaultFreeRunsAreRecoverable(s: Sys, steps: seq<Step>, t: Sys)
    requires Init(s) && Run(s, steps, t, FaultFree)
    ensures Run(s, steps, t, Recoverable)
  {
    InitIsKept(s);
    RunHandedOn(s, steps, t);
  }
}
