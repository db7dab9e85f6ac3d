/** The job store: the in-memory store as the simple form, and the Redis store, whose updates are
    optimistic transactions (WATCH, GET, MULTI/EXEC, at most eight attempts). */
module JobStore {
  import opened Text
  import opened Domain

  type Closure = Job -> Job

  const ATTEMPTS: nat := 8

  // ----- The simple form -----

  /** An atomic update of a record that may not exist. */
  function Updated(v: Option<Job>, fn: Closure): Option<Job> {
    match v
    case None => None
    case Some(j) => Some(fn(j))
  }

  function Stored(jobs: map<string, Job>, id: string): Option<Job> {
    if id in jobs then Some(jobs[id]) else None
  }

  class InMemoryStore {
    var jobs: map<string, Job>

    constructor ()
      ensures jobs == map[]
    {
      jobs := map[];
    }

    /** Whatever was stored under the id, `job` is found there from now on, and every other id keeps its job. */
    method Create(id: string, job: Job)
      modifies this
      ensures Stored(jobs, id) == Some(job) && jobs == old(jobs)[id := job]
      ensures forall k :: k != id ==> Stored(jobs, k) == Stored(old(jobs), k)
    {
      jobs := jobs[id := job];
    }

    method Get(id: string) returns (r: Option<Job>)
      ensures r == Stored(jobs, id) == if id in jobs then Some(jobs[id]) else None
    {
      if id !in jobs {
        return None;
      }
      return Some(jobs[id]);
    }

    method Update(id: string, fn: Closure) returns (r: Option<Job>)
      modifies this
      ensures r == Updated(Stored(old(jobs), id), fn) == Stored(jobs, id)
      ensures id in old(jobs) ==> jobs == old(jobs)[id := fn(old(jobs)[id])] && r == Some(fn(old(jobs)[id]))
      ensures id !in old(jobs) ==> jobs == old(jobs) && r == None
      ensures forall k :: k != id ==> Stored(jobs, k) == Stored(old(jobs), k)
    {
      if id !in jobs {
        return None;
      }
      jobs := jobs[id := fn(jobs[id])];
      return Some(jobs[id]);
    }
  }

  // ----- Optimistic updates of one record, in any interleaving -----

  datatype Result =
    | Missing             // no such job
    | Committed(j: Job)   // the transaction went through
    | Exceeded            // eight attempts failed
    | Broken              // a call to the server failed, or its answer got lost

  /** Where a call of Update is; `v` is the version of the record at its WATCH. */
  datatype Pc =
    | Idle
    | Watched(v: nat)
    | Loaded(v: nat, j: Job)
    | Done(r: Result)

  datatype Call = Call(fn: Closure, tries: nat, pc: Pc, since: nat)

  /** Who committed which closure. */
  datatype Commit = Commit(c: nat, fn: Closure)

  /** One record with its version, the calls on it, and the history: how it was created, and what was
      committed on it in which order. */
  datatype Store = Store(value: Option<Job>, version: nat, calls: map<nat, Call>, created: Option<Job>,
    log: seq<Commit>)

  datatype StoreStep =
    | SetNX(job: Job)
    | Begin(c: nat, fn: Closure)
    | Watch(c: nat)
    | Load(c: nat)
    | Exec(c: nat)
    | Fail(c: nat)       // any of the three fails with no effect
    | ExecLost(c: nat)   // EXEC ran, its answer got lost

  predicate StoreEnabled(s: Store, step: StoreStep) {
    match step
    case SetNX(_) => true
    case Begin(c, _) => c !in s.calls
    case Watch(c) => c in s.calls && s.calls[c].pc.Idle?
    case Load(c) => c in s.calls && s.calls[c].pc.Watched?
    case Exec(c) => c in s.calls && s.calls[c].pc.Loaded?
    case Fail(c) => c in s.calls && !s.calls[c].pc.Done?
    case ExecLost(c) => c in s.calls && s.calls[c].pc.Loaded?
  }

  function At(s: Store, c: nat, pc: Pc): Store
    requires c in s.calls
  {
    s.(calls := s.calls[c := s.calls[c].(pc := pc)])
  }

  /** EXEC: the write goes through only if nobody wrote since the WATCH. */
  function Executed(s: Store, c: nat): Store
    requires c in s.calls && s.calls[c].pc.Loaded?
  {
    if s.calls[c].pc.v == s.version
    then s.(value := Some(s.calls[c].pc.j), version := s.version + 1, log := s.log + [Commit(c, s.calls[c].fn)])
    else s
  }

  function StoreApply(s: Store, step: StoreStep): Store
    requires StoreEnabled(s, step)
  {
    match step
    case SetNX(job) =>
      if s.value.Some? then s else s.(value := Some(job), version := s.version + 1, created := Some(job))
    case Begin(c, fn) => s.(calls := s.calls[c := Call(fn, 0, Idle, s.version)])
    case Watch(c) => At(s, c, Watched(s.version))
    case Load(c) =>
      if s.value.None? then At(s, c, Done(Missing)) else At(s, c, Loaded(s.calls[c].pc.v, s.calls[c].fn(s.value.value)))
    case Exec(c) =>
      var call := s.calls[c];
      if call.pc.v == s.version then At(Executed(s, c), c, Done(Committed(call.pc.j)))
      else s.(calls := s.calls[c := call.(tries := call.tries + 1,
        pc := if call.tries + 1 < ATTEMPTS then Idle else Done(Exceeded))])
    case Fail(c) => At(s, c, Done(Broken))
    case ExecLost(c) => At(Executed(s, c), c, Done(Broken))
  }

  ghost predicate StoreRun(s: Store, steps: seq<StoreStep>, t: Store)
    decreases |steps|
  {
    if steps == [] then s == t
    else StoreEnabled(s, steps[0]) && StoreRun(StoreApply(s, steps[0]), steps[1..], t)
  }

  ghost predicate StoreInit(s: Store) {
    s == Store(None, s.version, map[], None, [])
  }

  /** The record after the first `n` commits, had each been one atomic update. */
  function Replay(created: Option<Job>, log: seq<Commit>, n: nat): Option<Job>
    requires n <= |log|
  {
    if n == 0 then created else Updated(Replay(created, log, n - 1), log[n - 1].fn)
  }

  lemma {:induction false} ReplayPrefix(created: Option<Job>, log: seq<Commit>, more: seq<Commit>, n: nat)
    requires n <= |log|
    ensures Replay(created, log + more, n) == Replay(created, log, n)
  {
    if n > 0 {
      ReplayPrefix(created, log, more, n - 1);
    }
  }

  /** `c` committed `fn` at position `i` and nothing anywhere else, and `j` is what `fn` made of the record. */
  ghost predicate CommittedAt(s: Store, c: nat, fn: Closure, j: Job, i: int) {
    && 0 <= i < |s.log| && s.log[i] == Commit(c, fn)
    && (forall k :: 0 <= k < |s.log| && s.log[k].c == c ==> k == i)
    && Replay(s.created, s.log, i + 1) == Some(j)
  }

  ghost predicate Took(s: Store, c: nat, fn: Closure, j: Job) {
    exists i :: CommittedAt(s, c, fn, j, i)
  }

  ghost predicate NoEffect(s: Store, c: nat) {
    forall i :: 0 <= i < |s.log| ==> s.log[i].c != c
  }

  ghost predicate CallOk(s: Store, c: nat)
    requires c in s.calls
  {
    var call := s.calls[c];
    match call.pc
    case Idle => NoEffect(s, c) && call.tries < ATTEMPTS && call.since + call.tries <= s.version
    case Watched(v) => NoEffect(s, c) && call.tries < ATTEMPTS && call.since + call.tries <= v <= s.version
    case Loaded(v, j) =>
      && NoEffect(s, c) && call.tries < ATTEMPTS && call.since + call.tries <= v <= s.version
      && (v == s.version ==> Updated(s.value, call.fn) == Some(j))
    case Done(Missing) => NoEffect(s, c)
    case Done(Exceeded) => NoEffect(s, c) && call.tries == ATTEMPTS && call.since + ATTEMPTS <= s.version
    case Done(Committed(j)) => Took(s, c, call.fn, j)
    case Done(Broken) => true
  }

  ghost predicate Linear(s: Store) {
    && s.value == Replay(s.created, s.log, |s.log|)
    && (s.value.None? ==> s.log == [])
    && (forall k :: 0 <= k < |s.log| ==> s.log[k].c in s.calls)
    && (forall i, j :: 0 <= i < j < |s.log| ==> s.log[i].c != s.log[j].c)
    && forall c :: c in s.calls ==> CallOk(s, c)
  }

  /** One commit by `c` was added to the history. */
  ghost predicate Appended(before: seq<Commit>, after: seq<Commit>, c: nat) {
    |after| == |before| + 1 && after[..|before|] == before && after[|before|].c == c
  }

  /** The history of finished calls survives further commits. */
  lemma CommitKept(s: Store, t: Store, c: nat, d: nat, fn: Closure, j: Job)
    requires Took(s, c, fn, j) && t.created == s.created
    requires t.log == s.log || (d != c && Appended(s.log, t.log, d))
    ensures Took(t, c, fn, j)
  {
    var i :| CommittedAt(s, c, fn, j, i);
    if t.log != s.log {
      var more := [t.log[|s.log|]];
      assert t.log == s.log + more;
      ReplayPrefix(s.created, s.log, more, i + 1);
    }
    assert CommittedAt(t, c, fn, j, i);
  }

  /** Whatever call `c` writes, the other calls stay as they should be. */
  lemma OtherCallOk(s: Store, t: Store, c: nat, d: nat)
    requires Linear(s) && d != c && d in s.calls && d in t.calls && t.calls[d] == s.calls[d]
    requires t.created == s.created
    requires (t.value == s.value && t.version == s.version && t.log == s.log)
      || (t.version == s.version + 1 && Appended(s.log, t.log, c))
    ensures CallOk(t, d)
  {
    assert CallOk(s, d);
    match s.calls[d].pc
    case Done(Committed(j)) => CommitKept(s, t, d, c, s.calls[d].fn, j);
    case _ =>
      assert NoEffect(s, d) ==> NoEffect(t, d);
  }

  /** A transaction that goes through adds one atomic update to the history. */
  lemma ExecutedIsLinear(s: Store, c: nat, r: Result)
    requires Linear(s) && c in s.calls && s.calls[c].pc.Loaded? && s.calls[c].pc.v == s.version
    requires r == Committed(s.calls[c].pc.j) || r == Broken
    ensures Linear(At(Executed(s, c), c, Done(r)))
  {
    var t := At(Executed(s, c), c, Done(r));
    var x := Commit(c, s.calls[c].fn);
    assert CallOk(s, c);
    ReplayPrefix(s.created, s.log, [x], |s.log|);
    assert CommittedAt(t, c, s.calls[c].fn, s.calls[c].pc.j, |s.log|);
    forall d | d in t.calls
      ensures CallOk(t, d)
    {
      if d != c {
        OtherCallOk(s, t, c, d);
      }
    }
  }

  /** Steps of a call that write nothing. */
  lemma QuietIsLinear(s: Store, t: Store, c: nat)
    requires Linear(s) && c in s.calls && t == s.(calls := t.calls) && t.calls.Keys == s.calls.Keys
    requires forall d :: d in s.calls && d != c ==> t.calls[d] == s.calls[d]
    requires CallOk(t, c)
    ensures Linear(t)
  {
    forall d | d in t.calls
      ensures CallOk(t, d)
    {
      if d != c {
        OtherCallOk(s, t, c, d);
      }
    }
  }

  lemma CreationIsLinear(s: Store, job: Job)
    requires Linear(s)
    ensures Linear(StoreApply(s, SetNX(job)))
  {
    var t := StoreApply(s, SetNX(job));
    forall c | c in t.calls
      ensures CallOk(t, c)
    {
      assert CallOk(s, c);
    }
  }

  lemma BeginIsLinear(s: Store, c: nat, fn: Closure)
    requires Linear(s) && c !in s.calls
    ensures Linear(StoreApply(s, Begin(c, fn)))
  {
    var t := StoreApply(s, Begin(c, fn));
    forall d | d in t.calls
      ensures CallOk(t, d)
    {
      if d != c {
        OtherCallOk(s, t, c, d);
      }
    }
  }

  lemma ExecIsLinear(s: Store, step: StoreStep)
    requires Linear(s) && StoreEnabled(s, step) && (step.Exec? || step.ExecLost?)
    ensures Linear(StoreApply(s, step))
  {
    var c := step.c;
    assert CallOk(s, c);
    if s.calls[c].pc.v == s.version {
      ExecutedIsLinear(s, c, if step.Exec? then Committed(s.calls[c].pc.j) else Broken);
    } else {
      QuietIsLinear(s, StoreApply(s, step), c);
    }
  }

  lemma StepIsLinear(s: Store, step: StoreStep)
    requires Linear(s) && StoreEnabled(s, step)
    ensures Linear(StoreApply(s, step))
  {
    var t := StoreApply(s, step);
    match step
    case SetNX(job) => CreationIsLinear(s, job);
    case Begin(c, fn) => BeginIsLinear(s, c, fn);
    case Exec(c) => ExecIsLinear(s, step);
    case ExecLost(c) => ExecIsLinear(s, step);
    case Watch(c) => assert CallOk(s, c); QuietIsLinear(s, t, c);
    case Load(c) => assert CallOk(s, c); QuietIsLinear(s, t, c);
    case Fail(c) => assert CallOk(s, c); QuietIsLinear(s, t, c);
  }

  lemma {:induction false} RunIsLinear(s: Store, steps: seq<StoreStep>, t: Store)
    requires Linear(s) && StoreRun(s, steps, t)
    ensures Linear(t)
    decreases |steps|
  {
    if steps != [] {
      StepIsLinear(s, steps[0]);
      RunIsLinear(StoreApply(s, steps[0]), steps[1..], t);
    }
  }

  /** `records` are the record as it was created and as each commit in turn left it: what its closure made of
      the one before. */
  ghost predicate Chronicle(s: Store, records: seq<Option<Job>>) {
    && |records| == |s.log| + 1 && records[0] == s.created && records[|s.log|] == s.value
    && forall i :: 0 <= i < |s.log| ==>
         records[i].Some? && records[i + 1] == Some(s.log[i].fn(records[i].value))
  }

  /** The call committed exactly once, and `j` is what it left. */
  ghost predicate CommittedOnce(s: Store, records: seq<Option<Job>>, c: nat, fn: Closure, j: Job) {
    |records| == |s.log| + 1 && exists i ::
      && 0 <= i < |s.log| && s.log[i].c == c && s.log[i].fn == fn && records[i + 1] == Some(j)
      && forall k :: 0 <= k < |s.log| && s.log[k].c == c ==> k == i
  }

  lemma {:induction false} ReplayNeedsJob(created: Option<Job>, log: seq<Commit>, n: nat)
    requires n <= |log|
    ensures Replay(created, log, n).Some? <==> created.Some?
  {
    if n > 0 {
      ReplayNeedsJob(created, log, n - 1);
    }
  }

  lemma LinearHasChronicle(s: Store) returns (records: seq<Option<Job>>)
    requires Linear(s)
    ensures Chronicle(s, records)
    ensures forall c, fn, j :: Took(s, c, fn, j) ==> CommittedOnce(s, records, c, fn, j)
  {
    records := seq(|s.log| + 1, i requires 0 <= i <= |s.log| => Replay(s.created, s.log, i));
    forall i | 0 <= i < |s.log|
      ensures records[i].Some? && records[i + 1] == Some(s.log[i].fn(records[i].value))
    {
      ReplayNeedsJob(s.created, s.log, i);
      ReplayNeedsJob(s.created, s.log, |s.log|);
    }
    forall c, fn, j | Took(s, c, fn, j)
      ensures CommittedOnce(s, records, c, fn, j)
    {
      var i :| CommittedAt(s, c, fn, j, i);
      assert records[i + 1] == Some(j);
    }
  }

  /** Optimistic updates refine atomic ones, in every interleaving and with every loss of an answer.
      The record is the created one with the committed closures applied in commit order; a successful
      call took effect exactly once, on the latest record, and returned what it wrote; a call that found
      no job had no effect; a call that gave up had none either, and eight writes of others got in its
      way; a call that broke off took effect at most once. */
  lemma UpdatesAreAtomic(s: Store, steps: seq<StoreStep>, t: Store) returns (records: seq<Option<Job>>)
    requires StoreInit(s) && StoreRun(s, steps, t)
    ensures Chronicle(t, records)
    ensures t.value == Replay(t.created, t.log, |t.log|)
    ensures forall i, k :: 0 <= i < k < |t.log| ==> t.log[i].c != t.log[k].c
    ensures forall c, j :: c in t.calls && t.calls[c].pc == Done(Committed(j)) ==>
      Took(t, c, t.calls[c].fn, j) && CommittedOnce(t, records, c, t.calls[c].fn, j)
    ensures forall c :: c in t.calls && t.calls[c].pc == Done(Missing) ==> NoEffect(t, c)
    ensures forall c :: c in t.calls && t.calls[c].pc == Done(Exceeded) ==>
      NoEffect(t, c) && t.calls[c].tries == 8 && t.calls[c].since + 8 <= t.version
  {
    RunIsLinear(s, steps, t);
    records := LinearHasChronicle(t);
    forall c | c in t.calls
      ensures CallOk(t, c)
    {
    }
  }

  /** The two stores create alike exactly if there is no job yet, or the very same one: the in-memory store
      overwrites, Redis keeps the first. */
  lemma CreatesAgreeIff(s: Store, jobs: map<string, Job>, id: string, job: Job)
    requires s.value == Stored(jobs, id)
    ensures StoreApply(s, SetNX(job)).value == Stored(jobs[id := job], id) <==>
      Stored(jobs, id).None? || Stored(jobs, id) == Some(job)
  {
  }

  // ----- The store's own code -----

  lemma {:induction false} RunSteps(s: Store, steps: seq<StoreStep>, t: Store, step: StoreStep)
    requires StoreRun(s, steps, t) && StoreEnabled(t, step)
    ensures StoreRun(s, steps + [step], StoreApply(t, step))
    decreases |steps|
  {
    if steps == [] {
      assert ([] + [step])[1..] == [];
    } else {
      RunSteps(StoreApply(s, steps[0]), steps[1..], t, step);
      assert (steps + [step])[1..] == steps[1..] + [step];
    }
  }

  /** What EXEC makes of a loaded call: it commits the closure on the record of that very moment, or it is to
      be repeated because somebody wrote since the WATCH, or the client knows nothing. */
  ghost predicate Answers(s: Store, t: Store, c: nat)
    requires c in s.calls && s.calls[c].pc.Loaded? && c in t.calls
  {
    match t.calls[c].pc
    case Idle => Superseded(s, t, c) && t.calls[c].tries < ATTEMPTS
    case Done(Exceeded) => Superseded(s, t, c) && t.calls[c].tries == ATTEMPTS
    case Done(Committed(j)) =>
      && t.log != [] && t.log[|t.log| - 1] == Commit(c, t.calls[c].fn)
      && t.value == Some(j) == Updated(Replay(t.created, t.log, |t.log| - 1), t.calls[c].fn)
    case Done(Broken) => true
    case _ => false
  }

  ghost predicate Superseded(s: Store, t: Store, c: nat)
    requires c in s.calls && s.calls[c].pc.Loaded? && c in t.calls
  {
    NoEffect(t, c) && s.calls[c].pc.v < t.version && t.calls[c].tries == s.calls[c].tries + 1
  }

  lemma ExecAnswers(s: Store, step: StoreStep, c: nat)
    requires Linear(s) && c in s.calls && s.calls[c].pc.Loaded? && s.calls[c].tries < ATTEMPTS
    requires step == Exec(c) || step == ExecLost(c) || step == Fail(c)
    ensures Answers(s, StoreApply(s, step), c)
  {
    assert CallOk(s, c);
    if step == Exec(c) && s.calls[c].pc.v == s.version {
      ReplayPrefix(s.created, s.log, [Commit(c, s.calls[c].fn)], |s.log|);
    }
  }

  predicate Acts(step: StoreStep, c: nat) {
    match step
    case SetNX(_) => false
    case Begin(d, _) => d == c
    case Watch(d) => d == c
    case Load(d) => d == c
    case Exec(d) => d == c
    case Fail(d) => d == c
    case ExecLost(d) => d == c
  }

  /** One record on the server, with the run that led to its state. */
  class RedisRecord {
    var s: Store
    ghost const init: Store
    ghost var steps: seq<StoreStep>

    ghost predicate Valid()
      reads this
    {
      StoreInit(init) && StoreRun(init, steps, s)
    }

    constructor ()
      ensures Valid() && s.calls == map[]
    {
      s := Store(None, 0, map[], None, []);
      init := Store(None, 0, map[], None, []);
      steps := [];
    }

    method Step(step: StoreStep)
      requires Valid() && StoreEnabled(s, step)
      modifies this
      ensures Valid() && s == StoreApply(old(s), step)
    {
      RunSteps(init, steps, s, step);
      steps := steps + [step];
      s := StoreApply(s, step);
    }

    /** Whatever all other callers do between two steps of call `c`. */
    method Others(c: nat)
      requires Valid()
      modifies this
      ensures Valid() && (c in s.calls <==> c in old(s).calls) && (c in s.calls ==> s.calls[c] == old(s).calls[c])
      ensures old(s).version <= s.version
    {
      var schedule: seq<StoreStep> := *;
      for i := 0 to |schedule|
        invariant Valid() && (c in s.calls <==> c in old(s).calls) && (c in s.calls ==> s.calls[c] == old(s).calls[c])
        invariant old(s).version <= s.version
      {
        if StoreEnabled(s, schedule[i]) && !Acts(schedule[i], c) {
          Step(schedule[i]);
        }
      }
    }

    /** One attempt: WATCH, GET, the closure, EXEC; each of them may fail for the client.  It commits the
        closure on the record of that very moment, or it is to be repeated because somebody else wrote in
        between, or it ends without a commit (a lost answer may hide one). */
    method Attempt(c: nat)
      requires Valid() && c in s.calls && s.calls[c].pc.Idle? && s.calls[c].tries < ATTEMPTS
      modifies this
      ensures Valid() && c in s.calls && s.calls[c].fn == old(s).calls[c].fn && s.calls[c].since
        == old(s).calls[c].since
      ensures var call := s.calls[c];
        call.pc.Done? || (call.pc.Idle? && call.tries == old(s).calls[c].tries + 1 < ATTEMPTS)
      ensures s.calls[c].pc == Done(Exceeded) ==> old(s).calls[c].tries + 1 == ATTEMPTS
      ensures s.calls[c].pc == Idle || s.calls[c].pc == Done(Exceeded) ==> NoEffect(s, c) && old(s).version < s.version
      ensures s.calls[c].pc == Done(Missing) ==> NoEffect(s, c)
      ensures s.calls[c].pc.Done? && s.calls[c].pc.r.Committed? ==>
        && s.log != [] && s.log[|s.log| - 1] == Commit(c, s.calls[c].fn)
        && s.value == Some(s.calls[c].pc.r.j) == Updated(Replay(s.created, s.log, |s.log| - 1), s.calls[c].fn)
    {
      var fails: bool := *;
      Step(if fails then Fail(c) else Watch(c));
      if fails {
        return;
      }
      Others(c);
      fails := *;
      Step(if fails then Fail(c) else Load(c));
      if s.calls[c].pc.Done? {
        RunIsLinear(init, steps, s);
        assert CallOk(s, c);
        return;
      }
      Others(c);
      Transact(c);
    }

    /** Its EXEC, which may fail for the client with or without effect. */
    method Transact(c: nat)
      requires Valid() && c in s.calls && s.calls[c].pc.Loaded? && s.calls[c].tries < ATTEMPTS
      modifies this
      ensures Valid() && c in s.calls && s.calls[c].fn == old(s).calls[c].fn && s.calls[c].since
        == old(s).calls[c].since
      ensures Answers(old(s), s, c)
    {
      var fails: bool := *;
      var lost: bool := *;
      RunIsLinear(init, steps, s);
      ExecAnswers(s, if !fails then Exec(c) else if lost then ExecLost(c) else Fail(c), c);
      Step(if !fails then Exec(c) else if lost then ExecLost(c) else Fail(c));
    }

    /** The retry loop, with any number of other callers in between.  It ends after at most eight attempts;
        a returned record was written exactly once, on the latest one; without one nothing was written. */
    method Update(c: nat, id: string, fn: Closure) returns (r: Result)
      requires Valid() && c !in s.calls
      modifies this
      ensures Valid()
      ensures TrimSpace(id) == "" ==> r == Missing && s == old(s)
      ensures TrimSpace(id) != "" ==> c in s.calls && s.calls[c].fn == fn && s.calls[c].pc == Done(r)
      ensures r.Committed? ==> Took(s, c, fn, r.j)
      ensures r.Missing? || r.Exceeded? ==> NoEffect(s, c)
      ensures r.Exceeded? ==> s.calls[c].tries == 8 && old(s).version + 8 <= s.version
    {
      RunIsLinear(init, steps, s);
      if TrimSpace(id) == "" {
        return Missing;
      }
      Step(Begin(c, fn));
      for i := 0 to ATTEMPTS
        invariant Valid() && c in s.calls && s.calls[c].fn == fn && s.calls[c].since == old(s).version
        invariant if i < ATTEMPTS then s.calls[c].pc.Idle? && s.calls[c].tries == i else s.calls[c].pc == Done(Exceeded)
      {
        Others(c);
        Attempt(c);
        if s.calls[c].pc.Done? && !s.calls[c].pc.r.Exceeded? {
          RunIsLinear(init, steps, s);
          assert CallOk(s, c);
          return s.calls[c].pc.r;
        }
      }
      RunIsLinear(init, steps, s);
      assert CallOk(s, c);
      return Exceeded;
    }
  }
}
