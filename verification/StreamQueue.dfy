/** The stream consumer: which errors are terminal, when an entry is acknowledged, and when pending
    entries are claimed again. */
module StreamQueue {
  import opened Text
  import opened Domain
  import opened Pipeline

  // ----- Errors -----

  /** An error value; a nil error is None. */
  datatype Error =
    | Plain(msg: string)
    | Wrapped(msg: string, inner: Error)       // fmt.Errorf with %w
    | TerminalError(err: Option<Error>)        // Terminal(err)

  function Unwrap(e: Error): Option<Error> {
    match e
    case Plain(_) => None
    case Wrapped(_, inner) => Some(inner)
    case TerminalError(err) => err
  }

  function Depth(e: Error): nat {
    match e
    case Plain(_) => 0
    case Wrapped(_, inner) => 1 + Depth(inner)
    case TerminalError(None) => 0
    case TerminalError(Some(inner)) => 1 + Depth(inner)
  }

  /** errors.As along the chain of wrapped errors. */
  predicate IsTerminal(e: Option<Error>)
    decreases if e.None? then 0 else 1 + Depth(e.value)
  {
    e.Some? && (e.value.TerminalError? || IsTerminal(Unwrap(e.value)))
  }

  /** `e` is reached from `from` by unwrapping. */
  ghost predicate InChain(e: Error, from: Option<Error>)
    decreases if from.None? then 0 else 1 + Depth(from.value)
  {
    from.Some? && (e == from.value || InChain(e, Unwrap(from.value)))
  }

  /** An error is terminal exactly if somewhere in its chain stands a Terminal mark, even one around nil;
      wrapping an error further never changes that. */
  lemma {:induction false} TerminalIff(e: Option<Error>)
    ensures IsTerminal(e) <==> exists t :: InChain(t, e) && t.TerminalError?
    ensures e.Some? ==> forall msg :: IsTerminal(Some(Wrapped(msg, e.value))) == IsTerminal(e)
    decreases if e.None? then 0 else 1 + Depth(e.value)
  {
    if e.Some? {
      TerminalIff(Unwrap(e.value));
      if IsTerminal(e) && !e.value.TerminalError? {
        var t :| InChain(t, Unwrap(e.value)) && t.TerminalError?;
        assert InChain(t, e);
      } else if e.value.TerminalError? {
        assert InChain(e.value, e);
      }
    }
  }

  // ----- The acknowledgement rule -----

  /** What the pipeline model calls the outcome of a handler. */
  function Rule(err: Option<Error>): Outcome {
    if err.None? || IsTerminal(err) then Ack else Keep
  }

  /** How the handler's call ends. */
  datatype Ending = Returns(err: Option<Error>) | Panics(reason: string)

  function Recovered(e: Ending): Option<Error> {
    match e
    case Returns(err) => err
    case Panics(reason) => Some(TerminalError(Some(Plain("panic: " + reason))))
  }

  /** How one handling of an entry goes: its handler's ending, and whether an XACK would reach the server. */
  datatype Handling = Handling(end: Ending, ackArrives: bool)

  /** A stream entry; a malformed one has no job id. */
  datatype Message = Message(id: string, jobId: Option<string>)

  /** An entry that names a job: its handler decides; any other is of no use to anybody. */
  predicate Acknowledged(m: Message, e: Ending) {
    m.jobId.None? || Blank(m.jobId.value) || Rule(Recovered(e)) == Ack
  }

  /** The pending list after the entries were handled one after the other; the error of a failed XACK is
      ignored, and the entry stays. */
  function Remaining(pending: set<string>, msgs: seq<Message>, hs: seq<Handling>, n: nat): set<string>
    requires n <= |msgs| == |hs|
  {
    if n == 0 then pending
    else
      var before := Remaining(pending, msgs, hs, n - 1);
      if Acknowledged(msgs[n - 1], hs[n - 1].end) && hs[n - 1].ackArrives then before - {msgs[n - 1].id} else before
  }

  /** The handler reported an error that is not terminal. */
  ghost predicate KeptPending(m: Message, e: Ending) {
    (exists j: string :: m.jobId == Some(j) && !Blank(j)) && e.Returns? && e.err.Some? && !IsTerminal(e.err)
  }

  /** An entry stays pending exactly if every time it was handled its handler reported an error that is not
      terminal, or its acknowledgement was lost. */
  lemma {:induction false} RemainingIff(pending: set<string>, msgs: seq<Message>, hs: seq<Handling>, n: nat, id: string)
    requires n <= |msgs| == |hs|
    ensures id in Remaining(pending, msgs, hs, n) <==>
      id in pending && forall i :: 0 <= i < n && msgs[i].id == id ==>
        KeptPending(msgs[i], hs[i].end) || !hs[i].ackArrives
  {
    if n > 0 {
      RemainingIff(pending, msgs, hs, n - 1, id);
      assert Acknowledged(msgs[n - 1], hs[n - 1].end) <==> !KeptPending(msgs[n - 1], hs[n - 1].end);
    }
  }

  /** Every handling of the entry kept it, or its acknowledgement was lost. */
  ghost predicate StaysPending(msgs: seq<Message>, hs: seq<Handling>, id: string)
    requires |msgs| == |hs|
  {
    forall i :: 0 <= i < |msgs| && msgs[i].id == id ==> KeptPending(msgs[i], hs[i].end) || !hs[i].ackArrives
  }

  // ----- The consumer -----

  /** What XAUTOCLAIM answers. */
  datatype ClaimAnswer = ClaimError | Claimed(msgs: seq<Message>, nextStart: string)

  class Consumer {
    var pending: set<string>           // the group's pending list
    var claimStart: string
    var lastClaimed: Option<Time>
    const claimEvery: int
    const claimMinIdle: int

    constructor (claimEvery: int, claimMinIdle: int)
      ensures pending == {} && claimStart == "0-0" && lastClaimed == None
      ensures this.claimEvery == claimEvery && this.claimMinIdle == claimMinIdle
    {
      pending, claimStart, lastClaimed := {}, "0-0", None;
      this.claimEvery, this.claimMinIdle := claimEvery, claimMinIdle;
    }

    /** XACK; the server gives every entry an id that is not blank. */
    method AckEntry(id: string, arrives: bool)
      modifies this`pending
      ensures pending == if arrives then old(pending) - {id} else old(pending)
    {
      if arrives {
        pending := pending - {id};
      }
    }

    /** Handles one entry; `h` says how its handler's call ends, if it comes to that, and what becomes of the
        acknowledgement. */
    method HandleOne(m: Message, h: Handling)
      modifies this`pending
      ensures pending == if Acknowledged(m, h.end) && h.ackArrives then old(pending) - {m.id} else old(pending)
      ensures pending == if KeptPending(m, h.end) || !h.ackArrives then old(pending) else old(pending) - {m.id}
    {
      if m.jobId.None? {
        AckEntry(m.id, h.ackArrives);
        return;
      }
      var jid := TrimSpace(m.jobId.value);
      BlankIffTrimmedAway(m.jobId.value);
      if jid == "" {
        AckEntry(m.id, h.ackArrives);
        return;
      }
      var err: Option<Error>;
      match h.end {
        case Returns(x) => err := x;
        case Panics(reason) => err := Some(TerminalError(Some(Plain("panic: " + reason))));
      }
      if err.None? || IsTerminal(err) {
        AckEntry(m.id, h.ackArrives);
      }
    }

    method HandleAll(msgs: seq<Message>, hs: seq<Handling>)
      requires |msgs| == |hs|
      modifies this`pending
      ensures forall id :: id in pending <==> id in old(pending) && StaysPending(msgs, hs, id)
    {
      for i := 0 to |msgs|
        invariant pending == Remaining(old(pending), msgs, hs, i)
      {
        HandleOne(msgs[i], hs[i]);
      }
      forall id
        ensures id in pending <==> id in old(pending) && StaysPending(msgs, hs, id)
      {
        RemainingIff(old(pending), msgs, hs, |msgs|, id);
      }
    }

    /** Claims at most once in `claimEvery`, goes on where the last claim left off, and hands every claimed
        entry to the handler: an entry stays pending exactly if each time it was handled its handler reported
        an error that is not terminal, or its acknowledgement was lost. */
    method MaybeAutoClaim(now: Time, answer: ClaimAnswer, hs: seq<Handling>)
      requires answer.Claimed? ==> |hs| == |answer.msgs|
      modifies this
      ensures var due := claimEvery > 0 && claimMinIdle > 0
          && (old(lastClaimed).None? || now - old(lastClaimed).value >= claimEvery);
        && lastClaimed == (if due then Some(now) else old(lastClaimed))
        && (due && answer.Claimed? ==>
             && claimStart == (if Blank(answer.nextStart) then old(claimStart) else answer.nextStart)
             && forall id :: id in pending <==> id in old(pending) && StaysPending(answer.msgs, hs, id))
        && (!due || answer.ClaimError? ==> claimStart == old(claimStart) && pending == old(pending))
    {
      if claimEvery <= 0 || claimMinIdle <= 0 {
        return;
      }
      if lastClaimed.Some? && now - lastClaimed.value < claimEvery {
        return;
      }
      lastClaimed := Some(now);
      if answer.ClaimError? {
        return;
      }
      BlankIffTrimmedAway(answer.nextStart);
      if TrimSpace(answer.nextStart) != "" {
        claimStart := answer.nextStart;
      }
      HandleAll(answer.msgs, hs);
    }

    /** One turn of the consume loop: claim what is overdue, then read new entries and handle them.  What the
        claim did not acknowledge, and what is new, is pending unless the new handlings acknowledge it. */
    method Turn(now: Time, answer: ClaimAnswer, claimed: seq<Handling>, delivered: seq<Message>, hs: seq<Handling>)
      requires answer.Claimed? ==> |claimed| == |answer.msgs|
      requires |hs| == |delivered|
      modifies this
      ensures var due := claimEvery > 0 && claimMinIdle > 0
          && (old(lastClaimed).None? || now - old(lastClaimed).value >= claimEvery);
        && lastClaimed == (if due then Some(now) else old(lastClaimed))
        && claimStart == (if due && answer.Claimed? && !Blank(answer.nextStart) then answer.nextStart
                          else old(claimStart))
        && forall id :: id in pending <==>
             && (|| (exists i :: 0 <= i < |delivered| && delivered[i].id == id)
                 || (id in old(pending) && (due && answer.Claimed? ==> StaysPending(answer.msgs, claimed, id))))
             && StaysPending(delivered, hs, id)
    {
      MaybeAutoClaim(now, answer, claimed);
      pending := pending + set m | m in delivered :: m.id;
      HandleAll(delivered, hs);
    }
  }
}
