/**
 The requests of one answer: the first, its retries after failures, and the one after a compaction
 (crates/agent-session/src/turn.rs).
 */
module Streams {
  import opened Wrappers
  import opened Blocks
  import opened SessionCores
  import opened Recovery
  import opened SessionRuns
  import opened RequestOutputs
  import opened RetryPolicies

  /** How the wait before a retry ended. */
  datatype Wait = Slept | SentNow | Stopped

  /** What happens as a request goes: the context told before it, the blocks its items replay, the events
      of its run, how it ends, the random number of its wait, and what a pass makes of the history if it
      compacts. */
  datatype Attempt = Attempt(context: seq<Block>, items: seq<BlockId>, events: seq<ProviderEvent>, failure: Option<Failure>,
                             stopped: bool, roll: nat, wait: Wait, pass: seq<Block> -> Option<seq<Block>>)
  {
    predicate Answers() {
      !stopped && failure.None?
    }

    /** The transcript once the request ended. */
    function Writes(before: seq<Block>): seq<Block> {
      AfterRequest(before, items, events, Answers())
    }
  }

  datatype End = Answered | CutShort | FilteredReply | FailedRequest | Cancelled

  /** What became of what a request wrote. */
  datatype Outcome = Kept | Dropped(passed: bool)

  /** A request as it went: the transcript before it, and once it ended. */
  datatype Sent = Sent(before: seq<Block>, request: Attempt, written: seq<Block>, outcome: Outcome) {

    /** What is left when it is cut to the blocks before the request. */
    function Cut(): seq<Block> {
      if |before| <= |written| then written[..|before|] else written
    }

    /** The transcript afterwards: a dropped attempt is cut, and a pass may compact what is left. */
    function After(): seq<Block> {
      match outcome
      case Kept => written
      case Dropped(passed) => if passed && request.pass(Cut()).Some? then request.pass(Cut()).value else Cut()
    }
  }

  /** The transcript the next request starts from. */
  function Next(transcript: seq<Block>, sent: seq<Sent>): seq<Block> {
    if sent == [] then transcript else sent[|sent| - 1].After()
  }

  /** The attempt is gone: it wrote only leftovers, which are cut, and the transcript is as it was before
      it unless one of its events names a block that was there, or a vendor's step of the turn still ran. */
  ghost predicate IsUndone(s: Sent) {
    && |s.before| <= |s.written|
    && OnlyLeftovers(s.written[|s.before|..]) && KeepsMessages(s.written, s.Cut())
    && (s.Cut() == s.before <==> !ReachesBack(s.before, s.request.items, s.request.events))
  }

  ghost predicate IsSentFrom(s: Sent, from: seq<Block>, request: Attempt) {
    && s.request == request && s.before == from + request.context && s.written == request.Writes(s.before)
    && (s.outcome.Dropped? ==> !request.Answers() && IsUndone(s))
  }

  /** Each request went from what the one before it left, and those that were dropped are undone. */
  ghost predicate Follow(sent: seq<Sent>, transcript: seq<Block>, env: nat -> Attempt) {
    sent == []
    || (var (earlier, last) := (sent[..|sent| - 1], sent[|sent| - 1]);
        Follow(earlier, transcript, env) && IsSentFrom(last, Next(transcript, earlier), env(|earlier|)))
  }

  /** Dropping a failed attempt that can be unwound undoes it exactly when it reached no earlier block. */
  lemma {:induction false} DroppingUndoesTheAttempt(
      before: seq<Block>, request: Attempt, startsThePath: bool, outcome: Outcome)
    requires !request.Answers() && CanUnwindTo(request.Writes(before), |before|, startsThePath)
    ensures IsUndone(Sent(before, request, request.Writes(before), outcome))
  {
    ARequestLeavesTheBlocksBeforeItExactlyWhen(before, request.items, request.events);
    AnAttemptIsDroppedExactlyWhenItIsLeftovers(request.Writes(before), |before|, startsThePath);
  }

  lemma {:induction false} FollowsOnce(sent: seq<Sent>, one: Sent, transcript: seq<Block>, env: nat -> Attempt)
    requires Follow(sent, transcript, env) && IsSentFrom(one, Next(transcript, sent), env(|sent|))
    ensures Follow(sent + [one], transcript, env) && Next(transcript, sent + [one]) == one.After()
  {
    assert (sent + [one])[..|sent|] == sent;
  }

  /** A retry of a request refused for its rate, after one event that updates the step an earlier request
      of the turn left, keeps the step as the dropped attempt made it. */
  lemma {:induction false} ADroppedAttemptMayLeaveAChange()
    ensures var before := [Block(0, User(0), None, 0), Block(1, Opaque(false, Some(7), false), Some(1), 0)];
            var written := AfterRequest(before, [0, 1], [OpaqueStep(false, Some(7), false)], false);
            && CanUnwindTo(written, |before|, true) && |written| == 2 && written[..2] != before
            && written[1].content == 1
  {
    var before := [Block(0, User(0), None, 0), Block(1, Opaque(false, Some(7), false), Some(1), 0)];
    var event := OpaqueStep(false, Some(7), false);
    assert before[..1] == [before[0]];
    assert TurnStart(before) == 1 && StepOf(before, Some(7)) == Some(1);
    assert Streamed(before, [0, 1], []) == Output(before, []);
    assert [event][..0] == [];
    var written := AfterRequest(before, [0, 1], [event], false);
    assert written[1] == before[1].(content := 1);
  }

  predicate AtMost(waits: seq<Duration>, most: Duration) {
    forall k :: 0 <= k < |waits| ==> waits[k] <= most
  }

  function Total(waits: seq<Duration>): nat {
    if waits == [] then 0 else Total(waits[..|waits| - 1]) + waits[|waits| - 1]
  }

  function MaxRequests(policy: RetryPolicy): nat {
    MaxWaits(policy) + 2
  }

  function MaxWaits(policy: RetryPolicy): nat {
    if policy.maxAttempts == 0 then 0 else policy.maxAttempts - 1
  }

  function MostWaiting(policy: RetryPolicy): nat {
    MaxWaits(policy) * policy.maxDelay
  }

  /** Waits that are each bounded are bounded together. */
  lemma {:induction false} WaitsAreBoundedTogether(waits: seq<Duration>, most: Duration, times: nat)
    requires |waits| <= times && AtMost(waits, most)
    ensures Total(waits) <= times * most
  {
    if waits != [] {
      WaitsAreBoundedTogether(waits[..|waits| - 1], most, times - 1);
      assert times * most == (times - 1) * most + most;
    }
  }

  ghost predicate AllDropped(sent: seq<Sent>) {
    forall k :: 0 <= k < |sent| ==> sent[k].outcome.Dropped?
  }

  /** Every request but the last was dropped; one that answered was not. */
  ghost predicate OnlyTheLastIsKept(sent: seq<Sent>, end: End) {
    && (sent != [] ==> AllDropped(sent[..|sent| - 1]))
    && (end.Answered? ==> sent != [] && sent[|sent| - 1].outcome.Kept? && sent[|sent| - 1].request.Answers())
  }

  // What each end leads to.

  /** A failure that waiting can fix, of an attempt that is not the last, whose vendor asks for no longer wait than
      the policy allows. */
  ghost predicate WaitingHelps(request: Attempt, policy: RetryPolicy, attempt: nat) {
    && !request.stopped && request.failure.Some? && attempt < policy.maxAttempts
    && request.failure.value.code in {RateLimit, Overloaded, DeviceOffline}
    && (request.failure.value.retryAfter == None || request.failure.value.retryAfter.value <= policy.maxDelay)
  }

  /** A refusal for its tokens, when no pass was made for one yet. */
  ghost predicate APassHelps(request: Attempt, mayPass: bool) {
    !request.stopped && request.failure.Some? && request.failure.value.code == ContextLengthExceeded && mayPass
  }

  /** How a request that is neither retried nor compacted for ends the call. */
  ghost predicate Ends(request: Attempt, resumes: bool, end: End) {
    && (end.Cancelled? <==> request.stopped)
    && (end.Answered? <==> !request.stopped && request.failure.None?)
    && (end.FilteredReply? <==>
          !request.stopped && request.failure.Some? && request.failure.value.code == Code.Filtered && resumes)
    && !end.CutShort?
  }

  /** An attempt whose output can be unwound is retried exactly when waiting helps and dropped for a pass exactly
      when one helps; every other ends the call. */
  lemma {:induction false} ARequestIsRetriedExactlyWhen(
      request: Attempt, unwindable: bool, policy: RetryPolicy, attempt: nat, resumes: bool, mayPass: bool)
    ensures var decision := Decide(request, unwindable, policy, attempt, resumes, mayPass);
            && (decision.TryAgain? <==> unwindable && WaitingHelps(request, policy, attempt))
            && (decision.TryAgain? ==> request.failure == Some(decision.failure))
            && (decision.PassFirst? <==> unwindable && APassHelps(request, mayPass))
            && (decision.Finish? ==> Ends(request, resumes, decision.end))
  {
  }

  /** How many requests were retried. */
  function Retried(sent: seq<Sent>): nat {
    if sent == [] then 0
    else Retried(sent[..|sent| - 1]) + if sent[|sent| - 1].outcome == Dropped(false) then 1 else 0
  }

  ghost predicate NoPassYet(sent: seq<Sent>) {
    forall k :: 0 <= k < |sent| ==> sent[k].outcome != Dropped(true)
  }

  /** The request was retried, or dropped for a pass, exactly when that helps and what it wrote can be unwound. */
  ghost predicate IsJudged(s: Sent, startsThePath: bool, policy: RetryPolicy, attempt: nat, mayPass: bool) {
    var unwindable := CanUnwindTo(s.written, |s.before|, startsThePath);
    && (s.outcome == Dropped(false) <==> unwindable && WaitingHelps(s.request, policy, attempt))
    && (s.outcome == Dropped(true) <==> unwindable && APassHelps(s.request, mayPass))
  }

  /** Each request was judged; the wait or the pass before each but the first went through; and each wait is the
      policy's. */
  ghost predicate EachIsJudged(
      sent: seq<Sent>, startsThePath: bool, policy: RetryPolicy, automatic: bool, waits: seq<Duration>) {
    if sent == [] then waits == []
    else
      var (earlier, last) := (sent[..|sent| - 1], sent[|sent| - 1]);
      && IsJudged(last, startsThePath, policy, 1 + Retried(earlier), automatic && NoPassYet(earlier))
      && (earlier != [] ==> LetsGoOn(earlier[|earlier| - 1]))
      && if last.outcome == Dropped(false) then
           && waits != [] && last.request.failure.Some?
           && waits[|waits| - 1] == policy.Delay(1 + Retried(earlier), last.request.failure.value.retryAfter, last.request.roll)
           && EachIsJudged(earlier, startsThePath, policy, automatic, waits[..|waits| - 1])
         else EachIsJudged(earlier, startsThePath, policy, automatic, waits)
  }

  /** A wait that ran out, or a pass that compacted. */
  ghost predicate LetsGoOn(s: Sent) {
    match s.outcome
    case Kept => false
    case Dropped(passed) => if passed then s.request.pass(s.Cut()).Some? else s.request.wait.Slept?
  }

  /** The call ends with the last request: by how it ended, as the pass for it gained nothing, or as its wait was
      left. */
  ghost predicate EndsAfter(s: Sent, resumes: bool, end: End) {
    match s.outcome
    case Kept => Ends(s.request, resumes, end)
    case Dropped(passed) =>
      !LetsGoOn(s) && if passed then end.FailedRequest? else end == if s.request.wait.SentNow? then CutShort else Cancelled
  }

  /** Sends the request, again after a failure that waiting can fix while all the attempt wrote can be
      unwound, and once more after a pass when it was refused for its tokens. */
  method Stream(transcript: seq<Block>, startsThePath: bool, policy: RetryPolicy, resumes: bool, automatic: bool,
                env: nat -> Attempt)
    returns (end: End, after: seq<Block>, sent: seq<Sent>, waits: seq<Duration>, passes: nat)
    ensures |sent| <= MaxRequests(policy) && passes <= 1
    ensures Total(waits) <= MostWaiting(policy)
    ensures AtMost(waits, policy.maxDelay)
    ensures Follow(sent, transcript, env) && after == Next(transcript, sent) && OnlyTheLastIsKept(sent, end)
    ensures EachIsJudged(sent, startsThePath, policy, automatic, waits)
    ensures sent != [] && EndsAfter(sent[|sent| - 1], resumes, end)
  {
    end, sent, waits, passes := Send(transcript, startsThePath, policy, resumes, automatic, env);
    after := Next(transcript, sent);
    AllWaitsAreBounded(policy, waits);
  }

  lemma {:induction false} AllWaitsAreBounded(policy: RetryPolicy, waits: seq<Duration>)
    requires |waits| <= MaxWaits(policy) && AtMost(waits, policy.maxDelay)
    ensures Total(waits) <= MostWaiting(policy)
  {
    WaitsAreBoundedTogether(waits, policy.maxDelay, MaxWaits(policy));
  }

  /** What a request's end leads to: the end of the call, a pass, or a wait before a retry. */
  datatype Decision = Finish(end: End) | PassFirst | TryAgain(failure: Failure)

  function Decide(
      request: Attempt, unwindable: bool, policy: RetryPolicy, attempt: nat, resumes: bool,
      mayPass: bool): Decision {
    if request.stopped then Finish(Cancelled)
    else if request.failure.None? then Finish(Answered)
    else
      var failure := request.failure.value;
      if failure.code.Filtered? && resumes then Finish(FilteredReply)
      else if failure.code.ContextLengthExceeded? && unwindable && mayPass then PassFirst
      else if unwindable && policy.Retries(attempt, failure) then TryAgain(failure)
      else Finish(FailedRequest)
  }

  ghost predicate LeadsTo(sent: seq<Sent>, decision: Decision) {
    if decision.Finish? then OnlyTheLastIsKept(sent, decision.end)
    else AllDropped(sent) && forall end: End :: !end.Answered? ==> OnlyTheLastIsKept(sent, end)
  }

  lemma {:induction false} OneMoreIsSent(sent: seq<Sent>, one: Sent, decision: Decision)
    requires AllDropped(sent) && one.outcome == if decision.Finish? then Kept else Dropped(decision.PassFirst?)
    requires decision == Finish(Answered) ==> one.request.Answers()
    ensures LeadsTo(sent + [one], decision)
  {
    assert (sent + [one])[..|sent|] == sent;
  }

  /** The waits once the request was retried, or was not. */
  function Waited(policy: RetryPolicy, attempt: nat, one: Sent, waits: seq<Duration>): seq<Duration> {
    if one.outcome == Dropped(false) && one.request.failure.Some?
    then waits + [policy.Delay(attempt, one.request.failure.value.retryAfter, one.request.roll)] else waits
  }

  lemma {:induction false} OneMoreIsCounted(sent: seq<Sent>, one: Sent)
    ensures Retried(sent + [one]) == Retried(sent) + if one.outcome == Dropped(false) then 1 else 0
    ensures NoPassYet(sent + [one]) <==> NoPassYet(sent) && one.outcome != Dropped(true)
  {
    var all := sent + [one];
    assert all[..|sent|] == sent && all[|sent|] == one && all != [];
    assert forall k :: 0 <= k < |sent| ==> all[k] == sent[k];
  }

  lemma {:induction false} OneMoreIsJudged(
      sent: seq<Sent>, one: Sent, startsThePath: bool, policy: RetryPolicy, automatic: bool, waits: seq<Duration>)
    requires EachIsJudged(sent, startsThePath, policy, automatic, waits) && (sent != [] ==> LetsGoOn(sent[|sent| - 1]))
    requires IsJudged(one, startsThePath, policy, 1 + Retried(sent), automatic && NoPassYet(sent))
    ensures EachIsJudged(sent + [one], startsThePath, policy, automatic, Waited(policy, 1 + Retried(sent), one, waits))
  {
    var (all, waited) := (sent + [one], Waited(policy, 1 + Retried(sent), one, waits));
    assert all[..|sent|] == sent && all[|sent|] == one && all != [];
    assert one.outcome == Dropped(false) ==> waited[..|waited| - 1] == waits;
  }

  /** The waits, with the one before the next attempt, stay within the policy's. */
  lemma {:induction false} OneMoreWaitIsBounded(policy: RetryPolicy, attempt: nat, one: Sent, waits: seq<Duration>)
    requires AtMost(waits, policy.maxDelay)
    ensures AtMost(Waited(policy, attempt, one, waits), policy.maxDelay)
  {
    if one.request.failure.Some? { WaitsAreBounded(policy, attempt, one.request.failure.value, one.request.roll); }
  }

  /** Each request went and was judged as it should. */
  ghost predicate Went(transcript: seq<Block>, sent: seq<Sent>, startsThePath: bool, policy: RetryPolicy, automatic: bool,
                       env: nat -> Attempt, waits: seq<Duration>) {
    && Follow(sent, transcript, env) && EachIsJudged(sent, startsThePath, policy, automatic, waits)
    && AtMost(waits, policy.maxDelay)
  }

  /** One request more may be sent. */
  ghost predicate GoesOn(sent: seq<Sent>, policy: RetryPolicy, waits: seq<Duration>, attempt: nat, passes: nat) {
    && 1 <= attempt && (attempt == 1 || attempt <= policy.maxAttempts) && passes <= 1
    && |sent| == attempt - 1 + passes && |waits| == attempt - 1 && Retried(sent) == attempt - 1
    && (passes == 0 <==> NoPassYet(sent)) && AllDropped(sent) && (sent != [] ==> LetsGoOn(sent[|sent| - 1]))
  }

  /** Sends one request more, and drops what it wrote unless its end finishes the call. */
  method SendOnce(transcript: seq<Block>, sent: seq<Sent>, startsThePath: bool, policy: RetryPolicy, automatic: bool,
                  env: nat -> Attempt, waits: seq<Duration>, attempt: nat, passes: nat, resumes: bool)
    returns (one: Sent, decision: Decision, waited: seq<Duration>)
    requires Went(transcript, sent, startsThePath, policy, automatic, env, waits)
    requires GoesOn(sent, policy, waits, attempt, passes)
    ensures Went(transcript, sent + [one], startsThePath, policy, automatic, env, waited)
    ensures LeadsTo(sent + [one], decision)
    ensures decision.Finish? ==> waited == waits && EndsAfter(one, resumes, decision.end)
    ensures decision.PassFirst? ==>
              waited == waits && passes == 0 && one.outcome == Dropped(true)
              && (LetsGoOn(one) ==> GoesOn(sent + [one], policy, waited, attempt, 1))
    ensures decision.TryAgain? ==>
              |waited| == attempt < policy.maxAttempts && one.outcome == Dropped(false)
              && (LetsGoOn(one) ==> GoesOn(sent + [one], policy, waited, attempt + 1, passes))
  {
    var request := env(|sent|);
    var before := Next(transcript, sent) + request.context;
    var written := request.Writes(before);
    var unwindable := CanUnwindTo(written, |before|, startsThePath);
    decision := Decide(request, unwindable, policy, attempt, resumes, passes == 0 && automatic);
    ARequestIsRetriedExactlyWhen(request, unwindable, policy, attempt, resumes, passes == 0 && automatic);
    var outcome := if decision.Finish? then Kept else Dropped(decision.PassFirst?);
    one := Sent(before, request, written, outcome);
    waited := Waited(policy, attempt, one, waits);
    if outcome.Dropped? {
      DroppingUndoesTheAttempt(before, request, startsThePath, outcome);
    }
    FollowsOnce(sent, one, transcript, env);
    OneMoreIsSent(sent, one, decision);
    OneMoreIsCounted(sent, one);
    OneMoreIsJudged(sent, one, startsThePath, policy, automatic, waits);
    OneMoreWaitIsBounded(policy, attempt, one, waits);
  }

  /** Sends one request more and waits, or passes, before the next; how the call ends, if it does. */
  method SendAndWait(transcript: seq<Block>, sent: seq<Sent>, startsThePath: bool, policy: RetryPolicy, automatic: bool,
                     env: nat -> Attempt, waits: seq<Duration>, attempt: nat, passes: nat, resumes: bool)
    returns (one: Sent, end: Option<End>, waited: seq<Duration>, attempts: nat, passed: nat)
    requires Went(transcript, sent, startsThePath, policy, automatic, env, waits)
    requires GoesOn(sent, policy, waits, attempt, passes)
    ensures Went(transcript, sent + [one], startsThePath, policy, automatic, env, waited)
    ensures passes <= passed <= 1 && |waited| <= MaxWaits(policy) && |sent| + 1 <= MaxRequests(policy)
    ensures end.Some? ==> OnlyTheLastIsKept(sent + [one], end.value) && EndsAfter(one, resumes, end.value)
    ensures end.None? ==> GoesOn(sent + [one], policy, waited, attempts, passed)
                          && (passes < passed || (passes == passed && attempt < attempts <= policy.maxAttempts))
  {
    var decision;
    one, decision, waited := SendOnce(transcript, sent, startsThePath, policy, automatic, env, waits, attempt, passes, resumes);
    end, attempts, passed := None, attempt, passes;
    match decision {
      case Finish(reached) => end := Some(reached);
      case PassFirst =>
        passed := 1;
        // A request refused for its tokens is not one that waiting can fix.
        if one.request.pass(one.Cut()).None? {
          end := Some(FailedRequest);
        }
      case TryAgain(_) =>
        attempts := attempt + 1;
        if !one.request.wait.Slept? {
          end := Some(if one.request.wait.SentNow? then CutShort else Cancelled);
        }
    }
  }

  method Send(transcript: seq<Block>, startsThePath: bool, policy: RetryPolicy, resumes: bool, automatic: bool,
              env: nat -> Attempt)
    returns (end: End, sent: seq<Sent>, waits: seq<Duration>, passes: nat)
    ensures |sent| <= MaxRequests(policy) && passes <= 1 && |waits| <= MaxWaits(policy)
    ensures Went(transcript, sent, startsThePath, policy, automatic, env, waits) && OnlyTheLastIsKept(sent, end)
    ensures sent != [] && EndsAfter(sent[|sent| - 1], resumes, end)
  {
    var attempt := 1;
    sent, waits, passes := [], [], 0;
    while true
      invariant Went(transcript, sent, startsThePath, policy, automatic, env, waits)
      invariant GoesOn(sent, policy, waits, attempt, passes)
      decreases 1 - passes, policy.maxAttempts - attempt
    {
      var one, reached;
      one, reached, waits, attempt, passes :=
        SendAndWait(transcript, sent, startsThePath, policy, automatic, env, waits, attempt, passes, resumes);
      sent := sent + [one];
      if reached.Some? {
        return reached.value, sent, waits, passes;
      }
    }
  }
}
