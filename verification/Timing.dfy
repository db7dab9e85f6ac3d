/** The pipeline on real clocks.  Both stages take their lock through RedisLock; if every holder's
    refreshes are timely, then what the pipeline sees is a run that meets assumption A1. */
module Timing {
  import opened Domain
  import opened Pipeline
  import opened RedisLock
  import Exclusion
  import Finality
  
  datatype Timed = Timed(s: Sys, cmp: Lock, pay: Lock)

  datatype TimedStep =
    | Do(step: Step)      // a pipeline step; a lock call also reaches the lock server
    | Pass(d: nat)        // time passes
    | KickCmp(t: nat)     // a refresh of a compare lock, or of a payment lock
    | KickPay(t: nat)

  datatype Ttls = Ttls(cmp: nat, pay: nat)

  /** What a queue operation does at the lock server. */
  function Calls<W>(l: Lock, st: Stage<W>, op: QueueOp, ttl: nat): Lock {
    match op
    case Acquire(h) => LockApply(l, Attempt(h, true), ttl)
    case AcquireFails(h, applied) => if applied then LockApply(l, Attempt(h, false), ttl) else l
    case Unlock(h, applied) => LockApply(l, Leave(h, applied), ttl)
    case Crash(h) => LockApply(l, Drop(h), ttl)
    case _ => l
  }

  predicate IsLapse(step: Step) {
    (step.CmpQueue? && step.op.Lapse?) || (step.PayQueue? && step.op.Lapse?)
  }

  /** The pipeline steps behind a timed step: time passing is a lapse of the locks that ran out. */
  function Seen(x: Timed, step: TimedStep, ttls: Ttls): seq<Step> {
    match step
    case Do(p) => [p]
    case Pass(d) =>
      (if View(LockApply(x.cmp, Tick(d), ttls.cmp)) != View(x.cmp) then [CmpQueue(Lapse)] else [])
      + (if View(LockApply(x.pay, Tick(d), ttls.pay)) != View(x.pay) then [PayQueue(Lapse)] else [])
    case _ => []
  }

  /** The lock servers. */
  function Servers(x: Timed, step: TimedStep, ttls: Ttls): (Lock, Lock) {
    match step
    case Do(CmpQueue(op)) => (Calls(x.cmp, x.s.cmp, op, ttls.cmp), x.pay)
    case Do(PayQueue(op)) => (x.cmp, Calls(x.pay, x.s.pay, op, ttls.pay))
    case Do(_) => (x.cmp, x.pay)
    case Pass(d) => (LockApply(x.cmp, Tick(d), ttls.cmp), LockApply(x.pay, Tick(d), ttls.pay))
    case KickCmp(t) => (LockApply(x.cmp, Renew(t), ttls.cmp), x.pay)
    case KickPay(t) => (x.cmp, LockApply(x.pay, Renew(t), ttls.pay))
  }

  /** The state after the steps, as far as they can be taken. */
  ghost function ApplyAll(s: Sys, steps: seq<Step>): Sys
    decreases |steps|
  {
    if steps == [] || !Enabled(s, steps[0]) then s else ApplyAll(Apply(s, steps[0]), steps[1..])
  }

  ghost function After(x: Timed, step: TimedStep, ttls: Ttls): Timed {
    var servers := Servers(x, step, ttls);
    Timed(ApplyAll(x.s, Seen(x, step, ttls)), servers.0, servers.1)
  }

  /** Time may only pass while no refresh is overdue; a lock is never taken away but by time. */
  ghost predicate TimedEnabled(x: Timed, step: TimedStep, ttls: Ttls) {
    match step
    case Do(p) => Enabled(x.s, p) && !IsLapse(p)
    case Pass(d) => Timely(x.cmp, Tick(d), ttls.cmp) && Timely(x.pay, Tick(d), ttls.pay)
    case _ => true
  }

  // ----- The pipeline's lock is the server's -----

  /** The stage sees the server's owner, and the holders are the handlers in their critical section. */
  ghost predicate Matches<W>(l: Lock, st: Stage<W>, ttl: nat) {
    && st.lock == View(l) && Held(l, ttl)
    && forall h :: h in l.holders <==> h in st.live && Critical(st.live[h].pc)
  }

  ghost predicate InStep(x: Timed, ttls: Ttls) {
    && ttls.cmp > 0 && ttls.pay > 0
    && Matches(x.cmp, x.s.cmp, ttls.cmp) && Matches(x.pay, x.s.pay, ttls.pay)
    && Exclusion.Numbered(x.s.cmp, x.s.nextId) && Exclusion.Numbered(x.s.pay, x.s.nextId)
  }

  lemma QueueMatches<W>(l: Lock, st: Stage<W>, op: QueueOp, id: nat, first: W, ttl: nat)
    requires ttl > 0 && Matches(l, st, ttl) && QueueEnabled(st, op) && !op.Lapse? && Exclusion.Numbered(st, id)
    ensures Matches(Calls(l, st, op, ttl), QueueApply(st, op, id, first), ttl)
    ensures Exclusion.Numbered(QueueApply(st, op, id, first), id + 1)
  {
  }

  /** A lock that runs out while time passes in a timely manner has no busy owner: that is A1. */
  lemma LapseIsIdle<W>(l: Lock, st: Stage<W>, d: nat, ttl: nat)
    requires Matches(l, st, ttl) && Timely(l, Tick(d), ttl)
    ensures View(LockApply(l, Tick(d), ttl)) == View(l) ==> Matches(LockApply(l, Tick(d), ttl), st, ttl)
    ensures View(LockApply(l, Tick(d), ttl)) != View(l) ==>
      QueueEnabled(st, Lapse) && !OwnerBusy(st) && Matches(LockApply(l, Tick(d), ttl), st.(lock := None), ttl)
  {
  }

  lemma RenewMatches<W>(l: Lock, st: Stage<W>, t: nat, ttl: nat)
    requires ttl > 0 && Matches(l, st, ttl)
    ensures Matches(LockApply(l, Renew(t), ttl), st, ttl)
  {
  }

  /** Moving within the critical section changes neither the lock nor who is busy. */
  ghost predicate SameBusy<W>(a: Stage<W>, b: Stage<W>) {
    && a.lock == b.lock && a.live.Keys == b.live.Keys
    && forall h :: h in a.live ==> Critical(a.live[h].pc) == Critical(b.live[h].pc)
  }

  lemma SameBusyMatches<W>(l: Lock, a: Stage<W>, b: Stage<W>, ttl: nat)
    requires Matches(l, a, ttl) && SameBusy(a, b)
    ensures Matches(l, b, ttl)
  {
  }

  lemma CompareWorkIsBusy(s: Sys, h: nat, act: CompareAct)
    requires CompareEnabled(s, h, act)
    ensures SameBusy(s.cmp, CompareApply(s, h, act).cmp) && SameBusy(s.pay, CompareApply(s, h, act).pay)
  {
  }

  lemma MovedIsBusy<W>(st: Stage<W>, h: nat, pc: Pc<W>)
    requires h in st.live && Critical(st.live[h].pc) && Critical(pc)
    ensures SameBusy(st, Moved(st, h, pc))
  {
  }

  lemma PayReadIsBusy(job: Option<Job>, fee: int)
    ensures Critical(AfterPayRead(job, fee))
  {
  }

  lemma PayWorkIsBusy(s: Sys, h: nat, act: PayAct)
    requires PayEnabled(s, h, act)
    ensures SameBusy(s.cmp, PayApply(s, h, act).cmp) && SameBusy(s.pay, PayApply(s, h, act).pay)
  {
    if act.PayReadOk? {
      PayReadIsBusy(s.job, act.fee);
    }
    MovedIsBusy(s.pay, h, PayApply(s, h, act).pay.live[h].pc);
  }

  lemma WorkMatches(x: Timed, p: Step, ttls: Ttls)
    requires InStep(x, ttls) && Enabled(x.s, p) && !p.CmpQueue? && !p.PayQueue?
    ensures InStep(Timed(Apply(x.s, p), x.cmp, x.pay), ttls)
  {
    var t := Apply(x.s, p);
    match p {
      case CmpDo(h, act) => CompareWorkIsBusy(x.s, h, act);
      case PayDo(h, act) => PayWorkIsBusy(x.s, h, act);
      case _ =>
    }
    SameBusyMatches(x.cmp, x.s.cmp, t.cmp, ttls.cmp);
    SameBusyMatches(x.pay, x.s.pay, t.pay, ttls.pay);
  }

  /** At most one step. */
  lemma ShortRun(s: Sys, p: Step, taken: bool)
    requires taken ==> Enabled(s, p) && LocksHold(s, p)
    ensures ApplyAll(s, if taken then [p] else []) == if taken then Apply(s, p) else s
    ensures Run(s, if taken then [p] else [], if taken then Apply(s, p) else s, LocksHold)
  {
    if taken {
      assert [p][1..] == [];
      assert Run(Apply(s, p), [], Apply(s, p), LocksHold);
    }
  }

  lemma {:induction false} ApplyJoins(s: Sys, a: seq<Step>, m: Sys, b: seq<Step>)
    requires Run(s, a, m, LocksHold)
    ensures ApplyAll(s, a + b) == ApplyAll(m, b)
    decreases |a|
  {
    if a == [] {
      assert a + b == b;
    } else {
      ApplyJoins(Apply(s, a[0]), a[1..], m, b);
      assert (a + b)[1..] == a[1..] + b;
    }
  }

  lemma PassIsLocked(x: Timed, d: nat, ttls: Ttls)
    requires InStep(x, ttls) && TimedEnabled(x, Pass(d), ttls)
    ensures Run(x.s, Seen(x, Pass(d), ttls), ApplyAll(x.s, Seen(x, Pass(d), ttls)), LocksHold)
    ensures InStep(After(x, Pass(d), ttls), ttls)
  {
    LapseIsIdle(x.cmp, x.s.cmp, d, ttls.cmp);
    LapseIsIdle(x.pay, x.s.pay, d, ttls.pay);
    var c := View(LockApply(x.cmp, Tick(d), ttls.cmp)) != View(x.cmp);
    var p := View(LockApply(x.pay, Tick(d), ttls.pay)) != View(x.pay);
    var a, b := if c then [CmpQueue(Lapse)] else [], if p then [PayQueue(Lapse)] else [];
    ShortRun(x.s, CmpQueue(Lapse), c);
    var m := ApplyAll(x.s, a);
    assert m.pay == x.s.pay;
    ShortRun(m, PayQueue(Lapse), p);
    ApplyJoins(x.s, a, m, b);
    RunsJoin(x.s, a, m, b, ApplyAll(m, b), LocksHold);
  }

  lemma DoIsLocked(x: Timed, p: Step, ttls: Ttls)
    requires InStep(x, ttls) && TimedEnabled(x, Do(p), ttls)
    ensures Run(x.s, [p], Apply(x.s, p), LocksHold) && After(x, Do(p), ttls).s == Apply(x.s, p)
    ensures InStep(After(x, Do(p), ttls), ttls)
  {
    ShortRun(x.s, p, true);
    match p
    case CmpQueue(op) => QueueMatches(x.cmp, x.s.cmp, op, x.s.nextId, ReadJob, ttls.cmp);
    case PayQueue(op) => QueueMatches(x.pay, x.s.pay, op, x.s.nextId, ReadPaidState, ttls.pay);
    case _ => WorkMatches(x, p, ttls);
  }

  lemma KickIsLocked(x: Timed, step: TimedStep, ttls: Ttls)
    requires InStep(x, ttls) && (step.KickCmp? || step.KickPay?)
    ensures After(x, step, ttls).s == x.s && InStep(After(x, step, ttls), ttls)
  {
    match step
    case KickCmp(t) => RenewMatches(x.cmp, x.s.cmp, t, ttls.cmp);
    case KickPay(t) => RenewMatches(x.pay, x.s.pay, t, ttls.pay);
  }

  /** One timed step is a run of pipeline steps that meets A1. */
  lemma StepIsLocked(x: Timed, step: TimedStep, ttls: Ttls)
    requires InStep(x, ttls) && TimedEnabled(x, step, ttls)
    ensures Run(x.s, Seen(x, step, ttls), After(x, step, ttls).s, LocksHold)
    ensures InStep(After(x, step, ttls), ttls)
  {
    match step
    case Do(p) => DoIsLocked(x, p, ttls);
    case Pass(d) => PassIsLocked(x, d, ttls);
    case _ => KickIsLocked(x, step, ttls);
  }

  // ----- Whole runs -----

  /** A run on clocks, whose pipeline steps meet a further assumption. */
  ghost predicate TimedRun(x: Timed, steps: seq<TimedStep>, y: Timed, ttls: Ttls, further: (Sys, Step) -> bool)
    decreases |steps|
  {
    if steps == [] then x == y
    else
      && TimedEnabled(x, steps[0], ttls) && (steps[0].Do? ==> further(x.s, steps[0].step))
      && TimedRun(After(x, steps[0], ttls), steps[1..], y, ttls, further)
  }

  /** An assumption that has nothing to say about locks running out. */
  ghost predicate AboutOthers(further: (Sys, Step) -> bool) {
    forall s, p :: IsLapse(p) ==> further(s, p)
  }

  ghost predicate Both(env: (Sys, Step) -> bool, further: (Sys, Step) -> bool) {
    forall s, p :: LocksHold(s, p) && further(s, p) ==> env(s, p)
  }

  lemma {:induction false} RunsJoin(s: Sys, a: seq<Step>, m: Sys, b: seq<Step>, t: Sys, env: (Sys, Step) -> bool)
    requires Run(s, a, m, env) && Run(m, b, t, env)
    ensures Run(s, a + b, t, env)
    decreases |a|
  {
    if a == [] {
      assert a + b == b;
    } else {
      RunsJoin(Apply(s, a[0]), a[1..], m, b, t, env);
      assert (a + b)[1..] == a[1..] + b;
    }
  }

  lemma {:induction false} RunUnder(s: Sys, a: seq<Step>, t: Sys, further: (Sys, Step) -> bool, env: (Sys,
    Step) -> bool)
    requires Run(s, a, t, LocksHold) && Both(env, further) && AboutOthers(further)
    requires forall i :: 0 <= i < |a| ==> IsLapse(a[i]) || (i == 0 && further(s, a[0]))
    ensures Run(s, a, t, env)
    decreases |a|
  {
    if a != [] {
      RunUnder(Apply(s, a[0]), a[1..], t, further, env);
    }
  }

  /** A1 is a theorem: what the pipeline sees of a run with timely refreshes is a run in which no handler
      loses its lock in its critical section. */
  lemma {:induction false} TimelyRunsAreLocked(x: Timed, steps: seq<TimedStep>, y: Timed, ttls: Ttls,
                                               further: (Sys, Step) -> bool, env: (Sys, Step) -> bool)
    returns (seen: seq<Step>)
    requires InStep(x, ttls) && TimedRun(x, steps, y, ttls, further) && Both(env, further) && AboutOthers(further)
    ensures Run(x.s, seen, y.s, env) && InStep(y, ttls)
    decreases |steps|
  {
    if steps == [] {
      seen := [];
    } else {
      StepIsLocked(x, steps[0], ttls);
      var first := Seen(x, steps[0], ttls);
      RunUnder(x.s, first, After(x, steps[0], ttls).s, further, env);
      var rest := TimelyRunsAreLocked(After(x, steps[0], ttls), steps[1..], y, ttls, further, env);
      seen := first + rest;
      RunsJoin(x.s, first, After(x, steps[0], ttls).s, rest, y.s, env);
    }
  }

  ghost predicate TimedInit(x: Timed, ttls: Ttls) {
    Init(x.s) && ttls.cmp > 0 && ttls.pay > 0
    && x.cmp.entry == None && x.cmp.holders == map[] && x.pay.entry == None && x.pay.holders == map[]
  }

  ghost predicate AtMostOneBusy<W>(st: Stage<W>) {
    forall h, k :: h in st.live && k in st.live && Critical(st.live[h].pc) && Critical(st.live[k].pc) ==> h == k
  }

  /** From a fresh start, with timely refreshes: the handlers of one stage and job are exclusive at all
      times, whatever else happens. */
  lemma TimelyHandlersAreExclusive(x: Timed, steps: seq<TimedStep>, y: Timed, ttls: Ttls)
    requires TimedInit(x, ttls) && TimedRun(x, steps, y, ttls, AnyEnvironment)
    ensures AtMostOneBusy(y.s.cmp) && AtMostOneBusy(y.s.pay)
  {
    var seen := TimelyRunsAreLocked(x, steps, y, ttls, AnyEnvironment, LocksHold);
  }

  /** With timely refreshes and recorded orders, at most one order is ever placed for the job. */
  lemma TimelyOneOrder(x: Timed, steps: seq<TimedStep>, y: Timed, ttls: Ttls)
    requires TimedInit(x, ttls) && TimedRun(x, steps, y, ttls, Exclusion.OrdersRecorded)
    ensures y.s.orderCalls <= 1
  {
    var env := (s: Sys, p: Step) => LocksHold(s, p) && Exclusion.OrdersRecorded(s, p);
    var seen := TimelyRunsAreLocked(x, steps, y, ttls, Exclusion.OrdersRecorded, env);
    Exclusion.OneOrderPerJob(x.s, seen, y.s, env);
  }

  /** With timely refreshes, clean enqueue errors and no payment before the quote, a Ready job stays
      Ready, and a cancelled or failed job stays cancelled or failed. */
  lemma TimelyFinality(x: Timed, before: seq<TimedStep>, y: Timed, after: seq<TimedStep>, z: Timed, ttls: Ttls)
    requires TimedInit(x, ttls) && TimedRun(x, before, y, ttls, Finality.A2AndA3) && TimedRun(y, after, z, ttls,
      Finality.A2AndA3)
    ensures Finality.StatusIn(y.s, {Ready}) ==> Finality.StatusIn(z.s, {Ready})
    ensures Finality.StatusIn(y.s, {Cancelled, Failed}) ==> Finality.StatusIn(z.s, {Cancelled, Failed})
  {
    var a := TimelyRunsAreLocked(x, before, y, ttls, Finality.A2AndA3, Finality.Honest);
    var b := TimelyRunsAreLocked(y, after, z, ttls, Finality.A2AndA3, Finality.Honest);
    Finality.InitIsClean(x.s);
    Finality.RunQuoted(x.s, a, y.s);
    Finality.RunQuoted(y.s, b, z.s);
    Finality.RunClean(x.s, a, y.s, Finality.Honest);
    Finality.RunClean(y.s, b, z.s, Finality.Honest);
  }
}
