/** The distributed lock: SET NX with an expiry, and scripts that refresh or delete a key only while it
    still carries the caller's token. */
module RedisLock {
  import opened Text
  import opened Domain

  // ----- One key of the server -----

  datatype Entry<T> = Entry(token: T, expiry: nat)

  /** Whose lock it is; an entry past its expiry is gone. */
  function Owner<T>(e: Option<Entry<T>>, now: nat): Option<T> {
    if e.Some? && now < e.value.expiry then Some(e.value.token) else None
  }

  /** SET key token NX PX px */
  function SetNX<T>(e: Option<Entry<T>>, now: nat, t: T, px: nat): Option<Entry<T>> {
    if Owner(e, now).None? then Some(Entry(t, now + px)) else e
  }

  /** The refresh script. */
  function RefreshScript<T(==)>(e: Option<Entry<T>>, now: nat, t: T, px: nat): Option<Entry<T>> {
    if Owner(e, now) == Some(t) then Some(Entry(t, now + px)) else e
  }

  /** The release script. */
  function ReleaseScript<T(==)>(e: Option<Entry<T>>, now: nat, t: T): Option<Entry<T>> {
    if Owner(e, now) == Some(t) then None else e
  }

  // ----- Times to live -----

  const MILLISECOND: int := 1_000_000

  const DEFAULT_TTL: int := 7_200_000_000_000  // two hours

  /** Milliseconds until the key expires; the client library rounds up what is below one. */
  function AcquirePx(ttl: int): (px: nat)
    ensures px > 0
  {
    var t := if ttl <= 0 then DEFAULT_TTL else ttl;
    if t < MILLISECOND then 1 else t / MILLISECOND
  }

  function RefreshPx(ttl: int): (px: nat)
    ensures px > 0
  {
    var t := if ttl <= 0 then DEFAULT_TTL else ttl;
    if t / MILLISECOND <= 0 then DEFAULT_TTL / MILLISECOND else t / MILLISECOND
  }

  /** Times to live are in nanoseconds, expiries in milliseconds, and the default is two hours. */
  lemma ExpiryTimes(ttl: int)
    ensures ttl >= 1_000_000 ==> AcquirePx(ttl) * 1_000_000 <= ttl < (AcquirePx(ttl) + 1) * 1_000_000
    ensures ttl >= 1_000_000 ==> RefreshPx(ttl) * 1_000_000 <= ttl < (RefreshPx(ttl) + 1) * 1_000_000
    ensures ttl <= 0 ==> AcquirePx(ttl) == 7_200_000 && RefreshPx(ttl) == 7_200_000
    ensures 0 < ttl < 1_000_000 ==> AcquirePx(ttl) == 1 && RefreshPx(ttl) == 7_200_000
  {
    if ttl >= 1_000_000 {
      assert ttl / 1_000_000 >= 1;
    }
  }

  /** A refresh renews the lock for as long as it was taken for, unless the time to live is positive
      but below a millisecond. */
  lemma RefreshKeepsTtl(ttl: int)
    ensures AcquirePx(ttl) == RefreshPx(ttl) <==> ttl <= 0 || ttl >= 1_000_000
  {
    ExpiryTimes(ttl);
  }

  // ----- Keys -----

  function KeyPrefix(prefix: string): string {
    if TrimSpace(prefix) == "" then "gy:lock:comparejob:" else TrimSpace(prefix)
  }

  function Key(prefix: string, jobID: string): string {
    KeyPrefix(prefix) + TrimSpace(jobID)
  }

  /** A job id as the service makes them. */
  predicate JobId(id: string) {
    Trimmed(id) && "job_" <= id
  }

  lemma PrefixIsTrimmed(prefix: string)
    ensures KeyPrefix(prefix) != "" && Trimmed(KeyPrefix(prefix))
  {
    TrimSpaceIsTrimmed(prefix);
  }

  lemma JoinIsTrimmed(p: string, id: string)
    requires p != "" && Trimmed(p) && id != "" && Trimmed(id)
    ensures Trimmed(p + id)
  {
    assert (p + id)[|p + id| - 1] == id[|id| - 1];
  }

  lemma KeyIs(prefix: string, id: string)
    requires Trimmed(id) && id != ""
    ensures Key(prefix, id) == KeyPrefix(prefix) + id && Trimmed(Key(prefix, id))
  {
    TrimmedIsFixed(id);
    PrefixIsTrimmed(prefix);
    JoinIsTrimmed(KeyPrefix(prefix), id);
  }

  /** The key of a job: the configured prefix, or the default, and the job's id. */
  lemma KeysAre(prefix: string, id: string)
    requires Trimmed(id)
    ensures Key(prefix, id) == (if Blank(prefix) then "gy:lock:comparejob:" else TrimSpace(prefix)) + id
  {
    TrimmedIsFixed(id);
    BlankIffTrimmedAway(prefix);
  }

  lemma SamePrefix(p: string, a: string, b: string)
    requires p + a == p + b
    ensures a == b
  {
    assert a == (p + a)[|p|..] == (p + b)[|p|..] == b;
  }

  lemma KeysEqualIff(prefix: string, a: string, b: string)
    requires Trimmed(a) && a != "" && Trimmed(b) && b != ""
    ensures Key(prefix, a) == Key(prefix, b) <==> a == b
  {
    KeyIs(prefix, a);
    KeyIs(prefix, b);
    if Key(prefix, a) == Key(prefix, b) {
      SamePrefix(KeyPrefix(prefix), a, b);
    }
  }

  /** Different jobs have different locks, and the two stages never share one, even under one prefix. */
  lemma LockKeysDistinct(prefix: string, a: string, b: string)
    requires JobId(a) && JobId(b)
    ensures Key(prefix, a) == Key(prefix, b) <==> a == b
    ensures Key(prefix, a) != Key(prefix, "paygate:" + b)
    ensures Key(prefix, "paygate:" + a) == Key(prefix, "paygate:" + b) <==> a == b
  {
    var pa, pb := "paygate:" + a, "paygate:" + b;
    JoinIsTrimmed("paygate:", a);
    JoinIsTrimmed("paygate:", b);
    KeysEqualIff(prefix, a, b);
    KeysEqualIff(prefix, a, pb);
    KeysEqualIff(prefix, pa, pb);
    assert a[0] == 'j' && pb[0] == 'p';
    if pa == pb {
      SamePrefix("paygate:", a, b);
    }
  }

  // ----- The client on a server -----

  datatype Reply = Err | Ok(done: bool)

  function At(keys: map<string, Entry<string>>, key: string): Option<Entry<string>> {
    if key in keys then Some(keys[key]) else None
  }

  /** `after` is `before` with one key set to `e`, or deleted. */
  ghost predicate OnlyAt(before: map<string, Entry<string>>, after: map<string, Entry<string>>, key: string,
                         e: Option<Entry<string>>) {
    At(after, key) == e && forall k :: k != key ==> At(after, k) == At(before, k)
  }

  datatype ClientCall =
    | Wait(d: nat)
    | CallAcquire(key: string, token: string, ttl: int)
    | CallRefresh(key: string, token: string, ttl: int)
    | CallRelease(key: string, token: string)

  /** The owner lets go of the lock, or refreshes it for another time than `ttl`. */
  predicate GivesUp(call: ClientCall, key: string, owner: string, ttl: int) {
    match call
    case CallRefresh(k, t, x) => TrimSpace(k) == TrimSpace(key) && TrimSpace(t) == TrimSpace(owner) && x != ttl
    case CallRelease(k, t) => TrimSpace(k) == TrimSpace(key) && TrimSpace(t) == TrimSpace(owner)
    case _ => false
  }

  class Client {
    var now: nat
    var keys: map<string, Entry<string>>

    constructor (now: nat)
      ensures this.now == now && keys == map[]
    {
      this.now, keys := now, map[];
    }

    method Acquire(rawKey: string, rawToken: string, ttl: int) returns (r: Reply)
      modifies this`keys
      ensures var key, token := TrimSpace(rawKey), TrimSpace(rawToken);
        if key == "" || token == "" then r == Err && keys == old(keys)
        else
          && r == Ok(Owner(At(old(keys), key), now).None?)
          && OnlyAt(old(keys), keys, key, SetNX(At(old(keys), key), now, token, AcquirePx(ttl)))
          && (r == Ok(true) && ttl >= 1_000_000 ==>
                key in keys && keys[key] == Entry(token, now + ttl / 1_000_000))
    {
      var key, token := TrimSpace(rawKey), TrimSpace(rawToken);
      if key == "" || token == "" {
        return Err;
      }
      if Owner(At(keys, key), now).Some? {
        return Ok(false);
      }
      keys := keys[key := Entry(token, now + AcquirePx(ttl))];
      r := Ok(true);
    }

    method Refresh(rawKey: string, rawToken: string, ttl: int) returns (r: Reply)
      modifies this`keys
      ensures var key, token := TrimSpace(rawKey), TrimSpace(rawToken);
        if key == "" || token == "" then r == Err && keys == old(keys)
        else
          && r == Ok(Owner(At(old(keys), key), now) == Some(token))
          && OnlyAt(old(keys), keys, key, RefreshScript(At(old(keys), key), now, token, RefreshPx(ttl)))
          && (r == Ok(true) && ttl >= 1_000_000 ==>
                key in keys && keys[key] == Entry(token, now + ttl / 1_000_000))
    {
      var key, token := TrimSpace(rawKey), TrimSpace(rawToken);
      if key == "" || token == "" {
        return Err;
      }
      if Owner(At(keys, key), now) == Some(token) {
        keys := keys[key := Entry(token, now + RefreshPx(ttl))];
        r := Ok(true);
      } else {
        r := Ok(false);
      }
    }

    method Release(rawKey: string, rawToken: string) returns (r: Reply)
      modifies this`keys
      ensures var key, token := TrimSpace(rawKey), TrimSpace(rawToken);
        if key == "" || token == "" then r == Err && keys == old(keys)
        else
          && r == Ok(Owner(At(old(keys), key), now) == Some(token))
          && OnlyAt(old(keys), keys, key, ReleaseScript(At(old(keys), key), now, token))
          && (r == Ok(true) ==> key !in keys)
    {
      var key, token := TrimSpace(rawKey), TrimSpace(rawToken);
      if key == "" || token == "" {
        return Err;
      }
      if Owner(At(keys, key), now) == Some(token) {
        keys := keys - {key};
        r := Ok(true);
      } else {
        r := Ok(false);
      }
    }
  }

  /** The lock is the owner's, at least until `until`. */
  ghost predicate OwnedUntil(c: Client, key: string, owner: string, until: nat)
    reads c
  {
    var e := At(c.keys, TrimSpace(key));
    e.Some? && e.value.token == TrimSpace(owner) && until <= e.value.expiry
  }

  /** Any one call of any client. */
  method Serve(c: Client, call: ClientCall, key: string, owner: string, ttl: int, ghost until: nat)
    requires ttl >= 1_000_000 && !GivesUp(call, key, owner, ttl) && until <= c.now + ttl / 1_000_000
    modifies c
    ensures old(c.now) <= c.now
    ensures old(OwnedUntil(c, key, owner, until)) && old(c.now) < until ==> OwnedUntil(c, key, owner, until)
  {
    ExpiryTimes(ttl);
    match call {
      case Wait(d) => c.now := c.now + d;
      case CallAcquire(k, t, x) => var r := c.Acquire(k, t, x);
      case CallRefresh(k, t, x) => var r := c.Refresh(k, t, x);
      case CallRelease(k, t) => var r := c.Release(k, t);
    }
  }

  /** The lock excludes: somebody takes it for `ttl` nanoseconds, then anybody does anything, but the owner
      does not give it up; whoever else asks for it within `ttl` does not get it. */
  method LockExcludes(c: Client, key: string, owner: string, ttl: int, schedule: seq<ClientCall>, other: string,
                      otherTtl: int)
    returns (first: Reply, second: Reply)
    requires ttl >= 1_000_000 && forall i :: 0 <= i < |schedule| ==> !GivesUp(schedule[i], key, owner, ttl)
    modifies c
    ensures first == Ok(true) && TrimSpace(other) != "" && c.now < old(c.now) + ttl / 1_000_000 ==> second == Ok(false)
  {
    ghost var start, until := c.now, c.now + ttl / 1_000_000;
    ExpiryTimes(ttl);
    first := c.Acquire(key, owner, ttl);
    for i := 0 to |schedule|
      invariant start <= c.now && (first == Ok(true) && c.now < until ==> OwnedUntil(c, key, owner, until))
    {
      Serve(c, schedule[i], key, owner, ttl, until);
    }
    second := c.Acquire(key, other, otherTtl);
  }

  // ----- One lock over time -----

  /** The holders are the handlers that were told they have the lock and have not let go of it yet, each
      with the time of its last refresh.  A token is a number; no two handlers draw the same. */
  datatype Lock = Lock(now: nat, entry: Option<Entry<nat>>, holders: map<nat, nat>)

  datatype LockOp =
    | Tick(d: nat)                      // time passes
    | Attempt(t: nat, answered: bool)   // SET NX reaches the server; its answer may get lost
    | Renew(t: nat)                     // a refresh, late ones of former holders included
    | Leave(t: nat, applied: bool)      // the deferred release, or its loss
    | Drop(t: nat)                      // the handler dies

  function View(l: Lock): Option<nat> { Owner(l.entry, l.now) }

  predicate LockEnabled(l: Lock, op: LockOp) {
    op.Attempt? ==> op.t !in l.holders
  }

  function LockApply(l: Lock, op: LockOp, ttl: nat): Lock {
    match op
    case Tick(d) => l.(now := l.now + d)
    case Attempt(t, answered) =>
      l.(entry := SetNX(l.entry, l.now, t, ttl),
         holders := if answered && View(l).None? then l.holders[t := l.now] else l.holders)
    case Renew(t) =>
      l.(entry := RefreshScript(l.entry, l.now, t, ttl),
         holders := if t in l.holders then l.holders[t := l.now] else l.holders)
    case Leave(t, applied) =>
      l.(entry := if applied then ReleaseScript(l.entry, l.now, t) else l.entry, holders := l.holders - {t})
    case Drop(t) => l.(holders := l.holders - {t})
  }

  /** Successive refreshes of every holder land less than one time to live apart. */
  predicate Timely(l: Lock, op: LockOp, ttl: nat) {
    op.Tick? ==> forall t :: t in l.holders ==> l.now + op.d < l.holders[t] + ttl
  }

  /** Every holder still owns the key. */
  predicate Held(l: Lock, ttl: nat) {
    forall t :: t in l.holders ==> l.entry == Some(Entry(t, l.holders[t] + ttl)) && l.now < l.holders[t] + ttl
  }

  /** Any run at all. */
  function LockAfter(l: Lock, ops: seq<LockOp>, ttl: nat): Lock {
    if ops == [] then l else LockApply(LockAfter(l, ops[..|ops| - 1], ttl), ops[|ops| - 1], ttl)
  }

  /** A run of timely refreshes, in which no handler reuses a token. */
  ghost predicate TimelyRun(l: Lock, ops: seq<LockOp>, ttl: nat) {
    forall i :: 0 <= i < |ops| ==>
      LockEnabled(LockAfter(l, ops[..i], ttl), ops[i]) && Timely(LockAfter(l, ops[..i], ttl), ops[i], ttl)
  }

  /** From acquire to release the key stays owned, and no two handlers overlap. */
  lemma {:induction false} TimelyHoldersOwnTheirKey(l: Lock, ops: seq<LockOp>, ttl: nat)
    requires ttl > 0 && Held(l, ttl) && TimelyRun(l, ops, ttl)
    ensures Held(LockAfter(l, ops, ttl), ttl)
    ensures forall t :: t in LockAfter(l, ops, ttl).holders ==> View(LockAfter(l, ops, ttl)) == Some(t)
    decreases |ops|
  {
    if ops != [] {
      var n := |ops| - 1;
      assert forall i :: 0 <= i < n ==> ops[..n][..i] == ops[..i];
      TimelyHoldersOwnTheirKey(l, ops[..n], ttl);
      HeldKept(LockAfter(l, ops[..n], ttl), ops[n], ttl);
    }
  }

  lemma HeldKept(l: Lock, op: LockOp, ttl: nat)
    requires ttl > 0 && Held(l, ttl) && LockEnabled(l, op) && Timely(l, op, ttl)
    ensures Held(LockApply(l, op, ttl), ttl)
  {
  }

  /** Timeliness is exactly what it takes: a delay leaves every holder its key if and only if it is timely. */
  lemma HeldIffTimely(l: Lock, d: nat, ttl: nat)
    requires Held(l, ttl)
    ensures (forall t :: t in l.holders ==> View(LockApply(l, Tick(d), ttl)) == Some(t)) <==> Timely(l, Tick(d), ttl)
  {
    var after := LockApply(l, Tick(d), ttl);
    if forall t :: t in l.holders ==> View(after) == Some(t) {
      forall t | t in l.holders
        ensures l.now + d < l.holders[t] + ttl
      {
        assert View(after) == Some(t);
      }
    }
  }

  /** With a late refresh two handlers overlap. */
  lemma LateRefreshOverlaps(ttl: nat) returns (end: Lock)
    requires ttl > 0
    ensures end.holders.Keys == {1, 2} && View(end) == Some(2)
  {
    var l := Lock(0, None, map[]);
    var l1 := LockApply(l, Attempt(1, true), ttl);
    var l2 := LockApply(l1, Tick(ttl), ttl);
    end := LockApply(l2, Attempt(2, true), ttl);
  }

  predicate ActsFor(op: LockOp, t: nat) {
    match op
    case Tick(_) => false
    case Attempt(u, _) => u == t
    case Renew(u) => u == t
    case Leave(u, _) => u == t
    case Drop(_) => false
  }

  /** In every run, late ones included: as long as its owner does nothing and its time is not up, nobody
      else's acquire, refresh or release removes, extends or replaces the lock. */
  lemma {:induction false} OthersAreHarmless(l: Lock, ops: seq<LockOp>, t: nat, ttl: nat)
    requires View(l) == Some(t) && forall i :: 0 <= i < |ops| ==> !ActsFor(ops[i], t)
    requires LockAfter(l, ops, ttl).now < l.entry.value.expiry
    ensures LockAfter(l, ops, ttl).entry == l.entry
    decreases |ops|
  {
    if ops != [] {
      var before := LockAfter(l, ops[..|ops| - 1], ttl);
      assert before.now <= LockAfter(l, ops, ttl).now;
      OthersAreHarmless(l, ops[..|ops| - 1], t, ttl);
    }
  }
}
