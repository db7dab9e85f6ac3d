/** The workers as they are written: straight-line code on shared state, with every other actor at work
    between any two of its actions.  Each action is proved to be an enabled step of the pipeline, so
    what is proved about runs of the pipeline holds of this code. */
module Workers {
  import opened Text
  import opened Domain
  import opened JobUpdates
  import opened Pipeline
  import opened StreamQueue
  import Amount
  import Safety
  import Service

  /** Tokens are drawn afresh. */
  predicate IdsUsed(s: Sys) {
    (forall h :: h in s.cmp.live ==> h < s.nextId) && (forall h :: h in s.pay.live ==> h < s.nextId)
  }

  lemma IdsStayUsed(s: Sys, step: Step)
    requires IdsUsed(s) && Enabled(s, step)
    ensures IdsUsed(Apply(s, step))
  {
  }

  /** The handler that a queue operation moves. */
  function Subject(op: QueueOp): Option<nat> {
    match op
    case Acquire(h) => Some(h)
    case AcquireFails(h, _) => Some(h)
    case Unlock(h, _) => Some(h)
    case Finish(h, _) => Some(h)
    case Crash(h) => Some(h)
    case Panic(h) => Some(h)
    case _ => None
  }

  predicate MovesCompare(step: Step, h: nat) {
    (step.CmpQueue? && Subject(step.op) == Some(h)) || (step.CmpDo? && step.h == h)
  }

  predicate MovesPay(step: Step, h: nat) {
    (step.PayQueue? && Subject(step.op) == Some(h)) || (step.PayDo? && step.h == h)
  }

  /** The handler is alive and at `pc`. */
  predicate At<W(==)>(st: Stage<W>, h: nat, pc: Pc<W>) {
    h in st.live && st.live[h].pc == pc
  }

  lemma QueueUnmoved<W>(st: Stage<W>, op: QueueOp, id: nat, first: W, h: nat)
    requires QueueEnabled(st, op) && h in st.live && h != id && Subject(op) != Some(h)
    ensures At(QueueApply(st, op, id, first), h, st.live[h].pc)
  {
  }

  lemma OthersLeaveCompare(s: Sys, step: Step)
    requires Enabled(s, step) && !step.CmpQueue? && !step.CmpDo?
    ensures Apply(s, step).cmp.live == s.cmp.live
  {
  }

  lemma OthersLeavePay(s: Sys, step: Step)
    requires Enabled(s, step) && !step.PayQueue? && !step.PayDo?
    ensures Apply(s, step).pay.live == s.pay.live
  {
  }

  lemma CompareUnmoved(s: Sys, step: Step, h: nat)
    requires IdsUsed(s) && Enabled(s, step) && h in s.cmp.live && !MovesCompare(step, h)
    ensures At(Apply(s, step).cmp, h, s.cmp.live[h].pc)
  {
    match step
    case CmpQueue(op) => QueueUnmoved(s.cmp, op, s.nextId, ReadJob, h);
    case CmpDo(k, act) => assert CompareApply(s, k, act).cmp == Moved(s.cmp, k, CompareApply(s, k, act).cmp.live[k].pc);
    case _ => OthersLeaveCompare(s, step);
  }

  lemma PayUnmoved(s: Sys, step: Step, h: nat)
    requires IdsUsed(s) && Enabled(s, step) && h in s.pay.live && !MovesPay(step, h)
    ensures At(Apply(s, step).pay, h, s.pay.live[h].pc)
  {
    match step
    case PayQueue(op) => QueueUnmoved(s.pay, op, s.nextId, ReadPaidState, h);
    case PayDo(k, act) => assert PayApply(s, k, act).pay == Moved(s.pay, k, PayApply(s, k, act).pay.live[k].pc);
    case _ => OthersLeavePay(s, step);
  }

  // ----- What one handler does -----

  /** Those of the steps that are the compare handler's own. */
  ghost function CompareSteps(steps: seq<Step>, h: nat): seq<Step> {
    if steps == [] then []
    else
      var n := |steps| - 1;
      CompareSteps(steps[..n], h) + if MovesCompare(steps[n], h) then [steps[n]] else []
  }

  ghost function PaySteps(steps: seq<Step>, h: nat): seq<Step> {
    if steps == [] then []
    else
      var n := |steps| - 1;
      PaySteps(steps[..n], h) + if MovesPay(steps[n], h) then [steps[n]] else []
  }

  lemma OwnSteps(steps: seq<Step>, step: Step, h: nat)
    ensures CompareSteps(steps + [step], h) == CompareSteps(steps, h) + if MovesCompare(step, h) then [step] else []
    ensures PaySteps(steps + [step], h) == PaySteps(steps, h) + if MovesPay(step, h) then [step] else []
  {
    assert (steps + [step])[..|steps|] == steps;
  }

  lemma Assoc(a: seq<Step>, b: seq<Step>, c: seq<Step>)
    ensures (a + b) + c == a + (b + c)
  {
  }

  /** How the calls of one compare handler turn out. */
  datatype CompareCalls = CompareCalls(
    answered: bool, applied: bool,          // SET NX
    oss: bool,                              // object storage is enabled
    readFails: bool,                        // first Get
    resetEffect: bool,                      // "mark as processing"
    failure: Option<string>,                // download, convert, compare, upload
    failEffect: bool, persistEffect: bool,
    rereadFails: bool,                      // second Get
    enqueueOk: bool, enqueueAdded: bool,
    released: bool, acked: bool)

  function EnqueueSteps(h: nat, calls: CompareCalls): seq<Step> {
    [CmpDo(h, if calls.enqueueOk then EnqueueOk else EnqueueFails(calls.enqueueAdded))]
  }

  /** From the downloads on; `second` is the record as read again. */
  function RestSteps(h: nat, calls: CompareCalls, second: Option<Job>): seq<Step> {
    if calls.failure.Some? then [CmpDo(h, BuildFails(calls.failure.value))] + [CmpDo(h, Write(calls.failEffect))]
    else [CmpDo(h, BuildOk)] + ([CmpDo(h, Write(calls.persistEffect))] + HandOnSteps(h, calls, second))
  }

  function HandOnSteps(h: nat, calls: CompareCalls, second: Option<Job>): seq<Step> {
    if calls.rereadFails then [CmpDo(h, ReadFails)]
    else
      [CmpDo(h, ReadOk(true))] + if second.None? || second.value.status == Cancelled then [] else EnqueueSteps(h, calls)
  }

  /** The critical section of compare-worker: what it does in which case; `first` is the record as read. */
  function CriticalSteps(h: nat, calls: CompareCalls, first: Option<Job>, second: Option<Job>): seq<Step> {
    if calls.readFails then [CmpDo(h, ReadFails)]
    else
      [CmpDo(h, ReadOk(calls.oss))]
        + if Ended(first) then [] else StageSteps(h, calls, first.value, second)
  }

  /** A job in progress: its result is there already, or cannot be made, or is to be made. */
  function StageSteps(h: nat, calls: CompareCalls, j: Job, second: Option<Job>): seq<Step> {
    if !Blank(j.resultKey) then EnqueueSteps(h, calls)
    else if !calls.oss || j.file1Key == "" || j.file2Key == "" then [CmpDo(h, Write(calls.failEffect))]
    else BuildSteps(h, calls, second)
  }

  function BuildSteps(h: nat, calls: CompareCalls, second: Option<Job>): seq<Step> {
    [CmpDo(h, Write(calls.resetEffect))] + RestSteps(h, calls, second)
  }

  /** How the calls of one payment handler turn out; `yuan` is what it computes for fee / 100. */
  datatype PayCalls = PayCalls(
    answered: bool, applied: bool,
    readFails: bool,
    fee: int, yuan: real, now: Time,
    answer: string,                         // CreateNativeOrder: blank for an error
    effect: bool,
    released: bool, acked: bool)

  function PayWriteStep(h: nat, calls: PayCalls): Step {
    PayDo(h, PayWrite(calls.effect, calls.now, calls.yuan))
  }

  /** One order call, then one update: the order, or its failure. */
  function OrderSteps(h: nat, calls: PayCalls): seq<Step> {
    [PayDo(h, if Blank(calls.answer) then OrderFails("order failed")
      else OrderOk(calls.answer)), PayWriteStep(h, calls)]
  }

  predicate Ended(job: Option<Job>) {
    job.None? || job.value.status == Cancelled || job.value.status == Ready || job.value.status == Failed
  }

  /** Ended, no result, paid, free, quoted already, or to be quoted. */
  function GateSteps(h: nat, calls: PayCalls, job: Option<Job>): seq<Step> {
    if Ended(job) || Blank(job.value.resultKey) then []
    else if job.value.paid || calls.fee <= 0 then [PayWriteStep(h, calls)]
    else if job.value.status == AwaitingPayment && !Blank(job.value.codeURL) then []
    else OrderSteps(h, calls)
  }

  /** The critical section of payment-worker: its tests in their order. */
  function PayCriticalSteps(h: nat, calls: PayCalls, job: Option<Job>): seq<Step> {
    if calls.readFails then [PayDo(h, PayReadFails)]
    else [PayDo(h, PayReadOk(calls.fee))] + GateSteps(h, calls, job)
  }

  /** The compare-worker's script, step by step: it stops at a failed read; an ended job, or none, is left
      alone; one with a result is only handed on; without storage or inputs it fails; and otherwise the result
      is built, recorded and, unless the job is gone or cancelled by then, handed on. */
  lemma CompareScript(h: nat, calls: CompareCalls, first: Option<Job>, second: Option<Job>)
    ensures var trace := CriticalSteps(h, calls, first, second);
      var read, fail := CmpDo(h, ReadOk(calls.oss)), CmpDo(h, Write(calls.failEffect));
      var enqueue := CmpDo(h, if calls.enqueueOk then EnqueueOk else EnqueueFails(calls.enqueueAdded));
      var reset, persist := CmpDo(h, Write(calls.resetEffect)), CmpDo(h, Write(calls.persistEffect));
      if calls.readFails then trace == [CmpDo(h, ReadFails)]
      else if first.None? || first.value.status in {Cancelled, Ready, Failed} then trace == [read]
      else if !Blank(first.value.resultKey) then trace == [read, enqueue]
      else if !calls.oss || first.value.file1Key == "" || first.value.file2Key == "" then trace == [read, fail]
      else if calls.failure.Some? then trace == [read, reset, CmpDo(h, BuildFails(calls.failure.value)), fail]
      else if calls.rereadFails then trace == [read, reset, CmpDo(h, BuildOk), persist, CmpDo(h, ReadFails)]
      else if second.None? || second.value.status == Cancelled then
        trace == [read, reset, CmpDo(h, BuildOk), persist, CmpDo(h, ReadOk(true))]
      else trace == [read, reset, CmpDo(h, BuildOk), persist, CmpDo(h, ReadOk(true)), enqueue]
  {
    BuildScript(h, calls, second);
  }

  lemma BuildScript(h: nat, calls: CompareCalls, second: Option<Job>)
    ensures var trace := BuildSteps(h, calls, second);
      var fail := CmpDo(h, Write(calls.failEffect));
      var enqueue := CmpDo(h, if calls.enqueueOk then EnqueueOk else EnqueueFails(calls.enqueueAdded));
      var reset, persist := CmpDo(h, Write(calls.resetEffect)), CmpDo(h, Write(calls.persistEffect));
      if calls.failure.Some? then trace == [reset, CmpDo(h, BuildFails(calls.failure.value)), fail]
      else if calls.rereadFails then trace == [reset, CmpDo(h, BuildOk), persist, CmpDo(h, ReadFails)]
      else if second.None? || second.value.status == Cancelled then
        trace == [reset, CmpDo(h, BuildOk), persist, CmpDo(h, ReadOk(true))]
      else trace == [reset, CmpDo(h, BuildOk), persist, CmpDo(h, ReadOk(true)), enqueue]
  {
    var rest := RestSteps(h, calls, second);
    if calls.failure.None? {
      var more := HandOnSteps(h, calls, second);
      assert rest == [CmpDo(h, BuildOk), CmpDo(h, Write(calls.persistEffect))] + more;
    }
  }

  /** The payment-worker's script: it stops at a failed read; an ended job, one without a result, and one with a
      quote are left alone; a paid or free one is released; and for any other an order is placed and recorded. */
  lemma PayScript(h: nat, calls: PayCalls, job: Option<Job>)
    ensures var trace := PayCriticalSteps(h, calls, job);
      var read, write := PayDo(h, PayReadOk(calls.fee)), PayDo(h, PayWrite(calls.effect, calls.now, calls.yuan));
      var order := PayDo(h, if Blank(calls.answer) then OrderFails("order failed") else OrderOk(calls.answer));
      if calls.readFails then trace == [PayDo(h, PayReadFails)]
      else if job.None? || job.value.status in {Cancelled, Ready, Failed} || Blank(job.value.resultKey) then
        trace == [read]
      else if job.value.paid || calls.fee <= 0 then trace == [read, write]
      else if job.value.status == AwaitingPayment && !Blank(job.value.codeURL) then trace == [read]
      else trace == [read, order, write]
  {
  }

  /** What the decision of the pipeline is, for a job in progress. */
  lemma GateDecision(j: Job, fee: int)
    requires !Ended(Some(j))
    ensures var pc, key := AfterPayRead(Some(j), fee), TrimSpace(j.resultKey);
      && (key == "" <==> Blank(j.resultKey))
      && pc == if key == "" then Unlocking(Keep)
               else if j.paid then Working(ReleaseJob(key))
               else if fee <= 0 then Working(ReleaseFreeJob(key))
               else if j.status == AwaitingPayment && !Blank(j.codeURL) then Unlocking(Ack)
               else Working(PlaceOrder(key, fee))
  {
    BlankIffTrimmedAway(j.resultKey);
  }

  /** streamq.Terminal: the entry is to be acknowledged. */
  method TerminalWith(inner: Option<Error>) returns (err: Option<Error>)
    ensures err == Some(TerminalError(inner)) && Rule(err) == Ack && IsTerminal(err)
  {
    err := Some(TerminalError(inner));
  }

  /** Any other error: the entry is to stay pending. */
  method Transient(msg: string) returns (err: Option<Error>)
    ensures err == Some(Plain(msg)) && Rule(err) == Keep && !IsTerminal(err)
  {
    assert !IsTerminal(Unwrap(Plain(msg)));
    err := Some(Plain(msg));
  }

  /** The closures as the workers run them: field assignments on the record. */
  method RunCompareClosure(w: CompareWork, job: Job, objectKey: string) returns (j: Job)
    requires w == Reset || w == Persist || w.GiveUp?
    ensures Some(j) == CompareWrite(Some(job), w, objectKey, true)
  {
    var r := new JobRecord(job);
    match w {
      case Reset => r.Reset();
      case Persist => r.Persist(objectKey);
      case GiveUp(msg) => r.Fail(msg);
    }
    j := r.Snapshot();
  }

  method RunPayClosure(w: PayWork, job: Job, now: Time, yuan: real) returns (j: Job)
    requires w.ReleaseJob? || w.ReleaseFreeJob? || w.StoreOrder? || w.Reject?
    ensures Some(j) == PayWriteJob(Some(job), w, true, now, yuan)
  {
    var r := new JobRecord(job);
    match w {
      case ReleaseJob(key) => r.Release(key);
      case ReleaseFreeJob(key) => r.ReleaseForFree(key, now);
      case StoreOrder(key, fee, url) => r.Await(key, yuan, url);
      case Reject(msg) => r.Fail(msg);
    }
    j := r.Snapshot();
  }

  predicate PayWriteAllowed(w: PayWork, yuan: real) {
    && (w.ReleaseJob? || w.ReleaseFreeJob? || w.StoreOrder? || w.Reject?)
    && (w.StoreOrder? ==> Amount.StoredAmount(w.fee, yuan))
  }

  /** The shared record, streams and locks of one job, with the run that led there. */
  class Cluster {
    var s: Sys
    ghost const start: Sys
    ghost var steps: seq<Step>

    ghost predicate Valid()
      reads this
    {
      Init(start) && Run(start, steps, s, AnyEnvironment) && IdsUsed(s)
    }

    /** What compare handler `h` has done so far, and what payment handler `h` has. */
    ghost function Compared(h: nat): seq<Step>
      reads this
    {
      CompareSteps(steps, h)
    }

    ghost function Gated(h: nat): seq<Step>
      reads this
    {
      PaySteps(steps, h)
    }

    constructor (objectKey: string)
      requires objectKey != "" && Trimmed(objectKey)
      ensures Valid() && Init(s)
    {
      s := Sys(objectKey, None, Creating, EmptyStage(), EmptyStage(), map[], {}, 0, [], 0, false);
      start := Sys(objectKey, None, Creating, EmptyStage(), EmptyStage(), map[], {}, 0, [], 0, false);
      steps := [];
    }

    /** So whatever these methods have done, a released job is paid and has its result. */
    lemma ReleasedIsPaid()
      requires Valid()
      ensures Safety.Safe(s)
      ensures s.job.Some? && s.job.value.status == Ready ==> s.job.value.paid && HasResult(s.job.value)
    {
      Service.InitIsSafe(start);
      Safety.ReachableSafe(start, steps, s, AnyEnvironment);
      if s.job.Some? {
        Service.ReadyImpliesPaid(start, steps, s);
      }
    }

    method Do(step: Step)
      requires Valid() && Enabled(s, step)
      modifies this
      ensures Valid() && s == Apply(old(s), step)
      ensures forall h :: Compared(h) == old(Compared(h)) + if MovesCompare(step, h) then [step] else []
      ensures forall h :: Gated(h) == old(Gated(h)) + if MovesPay(step, h) then [step] else []
    {
      RunExtends(start, steps, s, step, AnyEnvironment);
      IdsStayUsed(s, step);
      forall h: nat {
        OwnSteps(steps, step, h);
      }
      steps := steps + [step];
      s := Apply(s, step);
    }

    /** Whatever everybody else does meanwhile; only compare handler `h` stands still. */
    method OthersAroundCompare(h: nat)
      requires Valid() && h in s.cmp.live
      modifies this
      ensures Valid() && At(s.cmp, h, old(s).cmp.live[h].pc) && Compared(h) == old(Compared(h))
    {
      var schedule: seq<Step> := *;
      for i := 0 to |schedule|
        invariant Valid() && At(s.cmp, h, old(s).cmp.live[h].pc) && Compared(h) == old(Compared(h))
      {
        if Enabled(s, schedule[i]) && !MovesCompare(schedule[i], h) {
          CompareUnmoved(s, schedule[i], h);
          Do(schedule[i]);
        }
      }
    }

    method OthersAroundPay(h: nat)
      requires Valid() && h in s.pay.live
      modifies this
      ensures Valid() && At(s.pay, h, old(s).pay.live[h].pc) && Gated(h) == old(Gated(h))
    {
      var schedule: seq<Step> := *;
      for i := 0 to |schedule|
        invariant Valid() && At(s.pay, h, old(s).pay.live[h].pc) && Gated(h) == old(Gated(h))
      {
        if Enabled(s, schedule[i]) && !MovesPay(schedule[i], h) {
          PayUnmoved(s, schedule[i], h);
          Do(schedule[i]);
        }
      }
    }

    // ----- The compare worker -----

    method CompareGet(h: nat, w: CompareWork, oss: bool, fails: bool) returns (job: Option<Job>)
      requires Valid() && At(s.cmp, h, Working(w)) && (w == ReadJob || w == ReadAgain)
      modifies this
      ensures Valid() && Compared(h) == old(Compared(h)) + [CmpDo(h, if fails then ReadFails else ReadOk(oss))]
      ensures At(s.cmp, h, if fails then Unlocking(Keep)
                           else if w == ReadJob then AfterRead(job, oss) else AfterReadAgain(job))
    {
      OthersAroundCompare(h);
      job := s.job;
      Do(CmpDo(h, if fails then ReadFails else ReadOk(oss)));
    }

    /** An update: the record is what the closure makes of it, unless the update has no effect. */
    method CompareUpdate(h: nat, w: CompareWork, effect: bool)
      requires Valid() && At(s.cmp, h, Working(w)) && (w == Reset || w == Persist || w.GiveUp?)
      modifies this
      ensures Valid() && Compared(h) == old(Compared(h)) + [CmpDo(h, Write(effect))]
      ensures At(s.cmp, h, if w == Reset then Working(Build)
                           else if w == Persist then Working(ReadAgain) else Unlocking(Ack))
    {
      OthersAroundCompare(h);
      var record := s.job;
      if effect && record.Some? {
        var j := RunCompareClosure(w, record.value, s.objectKey);
        record := Some(j);
      }
      Do(CmpDo(h, Write(effect)));
      assert s.job == record;
    }

    /** Records the failure, and gives its error back. */
    method CompareFail(h: nat, msg: string, effect: bool) returns (err: Error)
      requires Valid() && At(s.cmp, h, Working(GiveUp(msg)))
      modifies this
      ensures Valid() && Compared(h) == old(Compared(h)) + [CmpDo(h, Write(effect))]
      ensures At(s.cmp, h, Unlocking(Ack))
    {
      CompareUpdate(h, GiveUp(msg), effect);
      return Plain(msg);
    }

    method EnqueuePayGate(h: nat, calls: CompareCalls) returns (err: Option<Error>)
      requires Valid() && At(s.cmp, h, Working(HandOff))
      modifies this
      ensures Valid() && Compared(h) == old(Compared(h)) + EnqueueSteps(h, calls)
      ensures At(s.cmp, h, Unlocking(if err.None? then Ack else Keep)) && (err.Some? ==> !IsTerminal(err))
    {
      OthersAroundCompare(h);
      if calls.enqueueOk {
        Do(CmpDo(h, EnqueueOk));
        return None;
      }
      Do(CmpDo(h, EnqueueFails(calls.enqueueAdded)));
      err := Transient("enqueue failed");
      return;
    }

    /** Downloads, conversion, comparison and upload: any of them may fail. */
    method BuildResult(h: nat, failure: Option<string>)
      requires Valid() && At(s.cmp, h, Working(Build))
      modifies this
      ensures Valid()
      ensures Compared(h) == old(Compared(h)) + [CmpDo(h, if failure.None? then BuildOk else BuildFails(failure.value))]
      ensures At(s.cmp, h, if failure.None? then Working(Persist) else Working(GiveUp(failure.value)))
    {
      OthersAroundCompare(h);
      Do(CmpDo(h, if failure.None? then BuildOk else BuildFails(failure.value)));
    }

    /** The critical section of compare-worker, amid everybody else's steps. */
    method CompareCritical(h: nat, calls: CompareCalls)
      returns (err: Option<Error>, ghost first: Option<Job>, ghost second: Option<Job>)
      requires Valid() && At(s.cmp, h, Working(ReadJob))
      modifies this
      ensures Valid() && At(s.cmp, h, Unlocking(Rule(err)))
      ensures Compared(h) == old(Compared(h)) + CriticalSteps(h, calls, first, second)
    {
      var job := CompareGet(h, ReadJob, calls.oss, calls.readFails);
      first, second := job, None;
      if calls.readFails {
        err := Transient("store");
        return;
      }
      if job.None? {
        return None, first, second;
      }
      if job.value.status == Cancelled {
        err := TerminalWith(None);
        return;
      }
      if job.value.status == Ready || job.value.status == Failed {
        err := TerminalWith(None);
        return;
      }
      err, second := MakeResult(h, calls, job.value);
      Assoc(old(Compared(h)), [CmpDo(h, ReadOk(calls.oss))], StageSteps(h, calls, job.value, second));
    }

    /** Its tests on a job in progress. */
    method MakeResult(h: nat, calls: CompareCalls, j: Job) returns (err: Option<Error>, ghost second: Option<Job>)
      requires Valid() && !Ended(Some(j)) && At(s.cmp, h, AfterRead(Some(j), calls.oss))
      modifies this
      ensures Valid() && At(s.cmp, h, Unlocking(Rule(err)))
      ensures Compared(h) == old(Compared(h)) + StageSteps(h, calls, j, second)
    {
      second := None;
      if !Blank(j.resultKey) && (j.status == AwaitingPayment || j.status == Processing) {
        err := EnqueuePayGate(h, calls);
        if err.None? {
          err := TerminalWith(None);
        }
        return;
      }
      if !calls.oss {
        var e := CompareFail(h, "OSS 未启用", calls.failEffect);
        err := TerminalWith(Some(e));
        return;
      }
      if j.file1Key == "" || j.file2Key == "" {
        var e := CompareFail(h, "输入文件 OSSKey 为空", calls.failEffect);
        err := TerminalWith(Some(e));
        return;
      }
      err, second := CompareBuild(h, calls);
    }

    /** "Mark as processing", and its second half. */
    method CompareBuild(h: nat, calls: CompareCalls) returns (err: Option<Error>, ghost second: Option<Job>)
      requires Valid() && At(s.cmp, h, Working(Reset))
      modifies this
      ensures Valid() && At(s.cmp, h, Unlocking(Rule(err)))
      ensures Compared(h) == old(Compared(h)) + BuildSteps(h, calls, second)
    {
      CompareUpdate(h, Reset, calls.resetEffect);
      err, second := CompareRest(h, calls);
      Assoc(old(Compared(h)), [CmpDo(h, Write(calls.resetEffect))], RestSteps(h, calls, second));
    }

    /** Its second half, from the downloads on. */
    method CompareRest(h: nat, calls: CompareCalls) returns (err: Option<Error>, ghost second: Option<Job>)
      requires Valid() && At(s.cmp, h, Working(Build))
      modifies this
      ensures Valid() && At(s.cmp, h, Unlocking(Rule(err)))
      ensures Compared(h) == old(Compared(h)) + RestSteps(h, calls, second)
    {
      second := None;
      BuildResult(h, calls.failure);
      if calls.failure.Some? {
        var e := CompareFail(h, calls.failure.value, calls.failEffect);
        err := TerminalWith(Some(e));
        return;
      }
      CompareUpdate(h, Persist, calls.persistEffect);
      err, second := HandOn(h, calls);
      ghost var persist, rest := [CmpDo(h, Write(calls.persistEffect))], HandOnSteps(h, calls, second);
      Assoc(old(Compared(h)) + [CmpDo(h, BuildOk)], persist, rest);
      Assoc(old(Compared(h)), [CmpDo(h, BuildOk)], persist + rest);
    }

    /** Its last part: read again, and hand the job on. */
    method HandOn(h: nat, calls: CompareCalls) returns (err: Option<Error>, ghost second: Option<Job>)
      requires Valid() && At(s.cmp, h, Working(ReadAgain))
      modifies this
      ensures Valid() && At(s.cmp, h, Unlocking(Rule(err)))
      ensures Compared(h) == old(Compared(h)) + HandOnSteps(h, calls, second)
    {
      var job := CompareGet(h, ReadAgain, true, calls.rereadFails);
      second := job;
      if calls.rereadFails {
        err := Transient("store");
        return;
      }
      if job.None? {
        return None, second;
      }
      if job.value.status == Cancelled {
        err := TerminalWith(None);
        return;
      }
      err := EnqueuePayGate(h, calls);
      if err.None? {
        err := TerminalWith(None);
      }
    }

    /** Process of compare-worker: take the lock or stop; the critical section; the deferred release. */
    method ProcessCompare(h: nat, calls: CompareCalls)
      returns (err: Option<Error>, ghost took: Step, ghost first: Option<Job>, ghost second: Option<Job>)
      requires Valid() && At(s.cmp, h, Acquiring)
      modifies this
      ensures Valid() && At(s.cmp, h, Returned(Rule(err)))
      ensures if calls.answered then took == CmpQueue(Acquire(h)) else exists b :: took == CmpQueue(AcquireFails(h, b))
      ensures Compared(h) == old(Compared(h)) + [took]
        || (calls.answered && Compared(h) == old(Compared(h)) + [took] + CriticalSteps(h, calls, first, second)
              + [CmpQueue(Unlock(h, calls.released))])
      ensures Compared(h) == old(Compared(h)) + [took] ==> err.Some? && IsTerminal(err) == calls.answered
    {
      first, second := None, None;
      OthersAroundCompare(h);
      if !calls.answered {
        took := CmpQueue(AcquireFails(h, calls.applied && s.cmp.lock.None?));
        Do(CmpQueue(AcquireFails(h, calls.applied && s.cmp.lock.None?)));
        err := Transient("redis");
        return;
      }
      var ok := s.cmp.lock.None?;
      took := CmpQueue(Acquire(h));
      Do(CmpQueue(Acquire(h)));
      if !ok {
        err := TerminalWith(Some(Plain("job locked")));
        return;
      }
      err, first, second := CompareCritical(h, calls);
      OthersAroundCompare(h);
      Do(CmpQueue(Unlock(h, calls.released)));
    }

    /** The consumer around it: the entry leaves the pending list exactly if the error calls for an
        acknowledgement and that reaches the server. */
    method HandleCompare(h: nat, calls: CompareCalls) returns (err: Option<Error>, ghost before: Sys)
      requires Valid() && At(s.cmp, h, Acquiring)
      modifies this
      ensures Valid() && At(before.cmp, h, Returned(Rule(err)))
      ensures h !in s.cmp.live && s.cmp.pending ==
        if Rule(err) == Ack && calls.acked then before.cmp.pending - {before.cmp.live[h].msg} else before.cmp.pending
    {
      ghost var took, first, second;
      err, took, first, second := ProcessCompare(h, calls);
      OthersAroundCompare(h);
      before := s;
      Do(CmpQueue(Finish(h, calls.acked)));
    }

    // ----- The payment worker -----

    method PayUpdate(h: nat, w: PayWork, calls: PayCalls)
      requires Valid() && At(s.pay, h, Working(w)) && PayWriteAllowed(w, calls.yuan)
      modifies this
      ensures Valid() && At(s.pay, h, Unlocking(Ack))
      ensures Gated(h) == old(Gated(h)) + [PayWriteStep(h, calls)]
    {
      OthersAroundPay(h);
      var record := s.job;
      if calls.effect && record.Some? {
        var j := RunPayClosure(w, record.value, calls.now, calls.yuan);
        record := Some(j);
      }
      Do(PayWriteStep(h, calls));
      assert s.job == record;
    }

    /** CreateNativeOrder: an error, or a non-blank URL. */
    method CreateOrder(h: nat, key: string, calls: PayCalls) returns (url: Option<string>)
      requires Valid() && At(s.pay, h, Working(PlaceOrder(key, calls.fee)))
      modifies this
      ensures Valid() && (url.Some? <==> !Blank(calls.answer))
      ensures Gated(h) == old(Gated(h))
        + [PayDo(h, if Blank(calls.answer) then OrderFails("order failed") else OrderOk(calls.answer))]
      ensures At(s.pay, h, Working(if url.Some? then StoreOrder(key, calls.fee, url.value)
                                   else Reject(ORDER_FAILED + "order failed")))
    {
      OthersAroundPay(h);
      if Blank(calls.answer) {
        Do(PayDo(h, OrderFails("order failed")));
        return None;
      }
      Do(PayDo(h, OrderOk(calls.answer)));
      return Some(calls.answer);
    }

    method PayGet(h: nat, calls: PayCalls) returns (job: Option<Job>)
      requires Valid() && At(s.pay, h, Working(ReadPaidState))
      modifies this
      ensures Valid() && At(s.pay, h, if calls.readFails then Unlocking(Keep) else AfterPayRead(job, calls.fee))
      ensures Gated(h) == old(Gated(h)) + [PayDo(h, if calls.readFails then PayReadFails else PayReadOk(calls.fee))]
    {
      OthersAroundPay(h);
      job := s.job;
      Do(PayDo(h, if calls.readFails then PayReadFails else PayReadOk(calls.fee)));
    }

    /** The critical section of payment-worker, amid everybody else's steps. */
    method PayCritical(h: nat, calls: PayCalls) returns (err: Option<Error>, ghost read: Option<Job>)
      requires Valid() && At(s.pay, h, Working(ReadPaidState)) && Amount.StoredAmount(calls.fee, calls.yuan)
      modifies this
      ensures Valid() && At(s.pay, h, Unlocking(Rule(err)))
      ensures Gated(h) == old(Gated(h)) + PayCriticalSteps(h, calls, read)
    {
      var job := PayGet(h, calls);
      read := job;
      if calls.readFails {
        err := Transient("store");
        return;
      }
      err := PassGate(h, calls, job);
      Assoc(old(Gated(h)), [PayDo(h, PayReadOk(calls.fee))], GateSteps(h, calls, job));
    }

    /** Its tests on the record it read. */
    method PassGate(h: nat, calls: PayCalls, job: Option<Job>) returns (err: Option<Error>)
      requires Valid() && At(s.pay, h, AfterPayRead(job, calls.fee))
      requires Amount.StoredAmount(calls.fee, calls.yuan)
      modifies this
      ensures Valid() && At(s.pay, h, Unlocking(Rule(err)))
      ensures Gated(h) == old(Gated(h)) + GateSteps(h, calls, job)
    {
      if job.None? {
        err := TerminalWith(None);
        return;
      }
      var j := job.value;
      if j.status == Cancelled || j.status == Ready || j.status == Failed {
        err := TerminalWith(None);
        return;
      }
      GateDecision(j, calls.fee);
      var ossKey := TrimSpace(j.resultKey);
      if ossKey == "" {
        err := Transient("result not ready");
        return;
      }
      if j.paid {
        PayUpdate(h, ReleaseJob(ossKey), calls);
        err := TerminalWith(None);
        return;
      }
      if calls.fee <= 0 {
        PayUpdate(h, ReleaseFreeJob(ossKey), calls);
        err := TerminalWith(None);
        return;
      }
      if j.status == AwaitingPayment && !Blank(j.codeURL) {
        err := TerminalWith(None);
        return;
      }
      err := PayByOrder(h, ossKey, calls);
    }

    /** Its last part: place an order, and record it or its failure. */
    method PayByOrder(h: nat, ossKey: string, calls: PayCalls) returns (err: Option<Error>)
      requires Valid() && At(s.pay, h, Working(PlaceOrder(ossKey, calls.fee))) && Amount.StoredAmount(calls.fee,
        calls.yuan)
      modifies this
      ensures Valid() && At(s.pay, h, Unlocking(Rule(err)))
      ensures Gated(h) == old(Gated(h)) + OrderSteps(h, calls)
    {
      var url := CreateOrder(h, ossKey, calls);
      if url.None? {
        PayUpdate(h, Reject(ORDER_FAILED + "order failed"), calls);
        err := TerminalWith(Some(Plain(ORDER_FAILED + "order failed")));
        return;
      }
      PayUpdate(h, StoreOrder(ossKey, calls.fee, url.value), calls);
      err := TerminalWith(None);
      return;
    }

    /** Process of payment-worker. */
    method ProcessPay(h: nat, calls: PayCalls) returns (err: Option<Error>, ghost took: Step, ghost read: Option<Job>)
      requires Valid() && At(s.pay, h, Acquiring) && Amount.StoredAmount(calls.fee, calls.yuan)
      modifies this
      ensures Valid() && At(s.pay, h, Returned(Rule(err)))
      ensures if calls.answered then took == PayQueue(Acquire(h)) else exists b :: took == PayQueue(AcquireFails(h, b))
      ensures Gated(h) == old(Gated(h)) + [took]
        || (calls.answered && Gated(h) == old(Gated(h)) + [took] + PayCriticalSteps(h, calls, read)
              + [PayQueue(Unlock(h, calls.released))])
      ensures Gated(h) == old(Gated(h)) + [took] ==> err.Some? && IsTerminal(err) == calls.answered
    {
      read := None;
      OthersAroundPay(h);
      if !calls.answered {
        took := PayQueue(AcquireFails(h, calls.applied && s.pay.lock.None?));
        Do(PayQueue(AcquireFails(h, calls.applied && s.pay.lock.None?)));
        err := Transient("redis");
        return;
      }
      var ok := s.pay.lock.None?;
      took := PayQueue(Acquire(h));
      Do(PayQueue(Acquire(h)));
      if !ok {
        err := TerminalWith(Some(Plain("paygate locked")));
        return;
      }
      err, read := PayCritical(h, calls);
      OthersAroundPay(h);
      Do(PayQueue(Unlock(h, calls.released)));
    }

    /** The consumer around it. */
    method HandlePay(h: nat, calls: PayCalls) returns (err: Option<Error>, ghost before: Sys)
      requires Valid() && At(s.pay, h, Acquiring) && Amount.StoredAmount(calls.fee, calls.yuan)
      modifies this
      ensures Valid() && At(before.pay, h, Returned(Rule(err)))
      ensures h !in s.pay.live && s.pay.pending ==
        if Rule(err) == Ack && calls.acked then before.pay.pending - {before.pay.live[h].msg} else before.pay.pending
    {
      ghost var took, read;
      err, took, read := ProcessPay(h, calls);
      OthersAroundPay(h);
      before := s;
      Do(PayQueue(Finish(h, calls.acked)));
    }

    // ----- The other updates of the record -----

    /** The notification handler's update. */
    method NotifyUpdate(n: nat, now: Time, effect: bool)
      requires Valid() && n in s.notifies
      modifies this
      ensures Valid() && s == Apply(old(s), Request(NotifyWrite(n, now, effect)))
    {
      var record := s.job;
      if effect && record.Some? {
        var r := new JobRecord(record.value);
        r.Confirm(now);
        record := Some(r.Snapshot());
      }
      Do(Request(NotifyWrite(n, now, effect)));
      assert s.job == record;
    }

    /** The cancel handler's update. */
    method CancelUpdate(c: nat, now: Time, effect: bool)
      requires Valid() && RequestEnabled(s, CancelWrite(c, now, effect))
      modifies this
      ensures Valid() && s == Apply(old(s), Request(CancelWrite(c, now, effect)))
    {
      var record := s.job;
      if effect && record.Some? {
        var r := new JobRecord(record.value);
        r.Cancel(now);
        record := Some(r.Snapshot());
      }
      Do(Request(CancelWrite(c, now, effect)));
      assert s.job == record;
    }
  }
}
