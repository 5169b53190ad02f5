/**
 A turn's requests and tool rounds (crates/agent-session/src/turn.rs): the calls a response requested
 run in steps, and a turn that ends leaves none executing.
 */
module Turns {
  import opened Wrappers
  import opened Blocks
  import opened SessionCores

  type ToolUseId = nat

  datatype PendingCall = PendingCall(toolUseId: ToolUseId, toolName: nat)

  // The calls of a transcript.

  /** Every call still executing, in order. */
  function PendingCalls(blocks: seq<Block>): (calls: seq<PendingCall>)
    ensures calls == [] <==> !AnyExecuting(blocks)
  {
    if blocks == [] then []
    else
      var (before, last) := (blocks[..|blocks| - 1], blocks[|blocks| - 1]);
      assert forall k :: 0 <= k < |before| ==> before[k] == blocks[k];
      if IsExecuting(last) then PendingCalls(before) + [PendingCall(last.body.toolUseId, last.body.toolName)]
      else PendingCalls(before)
  }

  /** Where the latest call of the id that still executes is. */
  function ExecutingCall(blocks: seq<Block>, id: ToolUseId): (at: Option<nat>)
    ensures at.Some? ==> at.value < |blocks| && IsExecuting(blocks[at.value]) && blocks[at.value].body.toolUseId == id
  {
    if blocks == [] then None
    else if IsExecuting(blocks[|blocks| - 1]) && blocks[|blocks| - 1].body.toolUseId == id then Some(|blocks| - 1)
    else ExecutingCall(blocks[..|blocks| - 1], id)
  }

  function WithCallCompleted(blocks: seq<Block>, id: ToolUseId): (r: seq<Block>)
    ensures |r| == |blocks|
  {
    var at := ExecutingCall(blocks, id);
    if at.None? then blocks else blocks[at.value := Settled(blocks[at.value])]
  }

  /** How many calls of the id execute. */
  function Executing(blocks: seq<Block>, id: ToolUseId): nat {
    if blocks == [] then 0
    else
      Executing(blocks[..|blocks| - 1], id)
      + if IsExecuting(blocks[|blocks| - 1]) && blocks[|blocks| - 1].body.toolUseId == id then 1 else 0
  }

  function Requested(calls: seq<PendingCall>, id: ToolUseId): nat {
    if calls == [] then 0
    else Requested(calls[..|calls| - 1], id) + if calls[|calls| - 1].toolUseId == id then 1 else 0
  }

  lemma {:induction false} RequestedInBoth(a: seq<PendingCall>, b: seq<PendingCall>, id: ToolUseId)
    ensures Requested(a + b, id) == Requested(a, id) + Requested(b, id)
  {
    if b == [] {
      assert a + b == a;
    } else {
      assert (a + b)[..|a + b| - 1] == a + b[..|b| - 1];
      RequestedInBoth(a, b[..|b| - 1], id);
    }
  }

  lemma {:induction false} PendingCallsAreTheExecuting(blocks: seq<Block>, id: ToolUseId)
    ensures Requested(PendingCalls(blocks), id) == Executing(blocks, id)
  {
    if blocks != [] {
      var (before, last) := (blocks[..|blocks| - 1], blocks[|blocks| - 1]);
      PendingCallsAreTheExecuting(before, id);
      if IsExecuting(last) {
        var call := PendingCall(last.body.toolUseId, last.body.toolName);
        assert (PendingCalls(before) + [call])[..|PendingCalls(before)|] == PendingCalls(before);
      }
    }
  }

  /** A completion ends one executing call of its id, when there is one, and no other. */
  lemma {:induction false} ACompletionEndsOneCall(blocks: seq<Block>, id: ToolUseId, other: ToolUseId)
    ensures Executing(WithCallCompleted(blocks, id), other)
            == if other == id && Executing(blocks, id) > 0 then Executing(blocks, id) - 1 else Executing(blocks, other)
    ensures ExecutingCall(blocks, id).Some? <==> Executing(blocks, id) > 0
  {
    if blocks != [] {
      var (before, last) := (blocks[..|blocks| - 1], blocks[|blocks| - 1]);
      ACompletionEndsOneCall(before, id, other);
      var after := WithCallCompleted(blocks, id);
      if IsExecuting(last) && last.body.toolUseId == id {
        assert after[..|blocks| - 1] == before;
      } else {
        assert after[..|blocks| - 1] == WithCallCompleted(before, id);
      }
    }
  }

  lemma {:induction false} NoneExecutes(blocks: seq<Block>)
    requires forall id: ToolUseId :: Executing(blocks, id) == 0
    ensures !AnyExecuting(blocks)
  {
    if blocks != [] {
      var (before, last) := (blocks[..|blocks| - 1], blocks[|blocks| - 1]);
      forall id: ToolUseId ensures Executing(before, id) == 0 { assert Executing(blocks, id) == 0; }
      NoneExecutes(before);
      assert !IsExecuting(last) by {
        assert last.body.ToolCall? ==> Executing(blocks, last.body.toolUseId) == 0;
      }
      forall k | 0 <= k < |blocks| ensures !IsExecuting(blocks[k]) {
        if k < |before| { assert before[k] == blocks[k]; }
      }
    }
  }

  // The steps.

  /** What happens around a step: whether a stop or a message sent now came before it, its calls as they
      return, and how many had returned when a stop ended the wait. */
  datatype StepWorld = StepWorld(stopped: bool, sendNow: bool, returned: seq<PendingCall>, stoppedAfter: Option<nat>)

  /** The calls of `a` are those of `b`, in some order. */
  ghost predicate SameCalls(a: seq<PendingCall>, b: seq<PendingCall>) {
    forall id: ToolUseId :: Requested(a, id) == Requested(b, id)
  }

  /** The length of the step that the first of the calls begins. */
  function StepLength(calls: seq<PendingCall>, together: nat -> bool): (n: nat)
    requires calls != []
    ensures 1 <= n <= |calls|
    ensures forall k :: 0 <= k < n ==> calls[k].toolName == calls[0].toolName
    ensures n > 1 ==> together(calls[0].toolName)
    ensures together(calls[0].toolName) && n < |calls| ==> calls[n].toolName != calls[0].toolName
  {
    if together(calls[0].toolName) then 1 + SameName(calls[1..], calls[0].toolName) else 1
  }

  function SameName(calls: seq<PendingCall>, name: nat): (n: nat)
    ensures n <= |calls| && forall k :: 0 <= k < n ==> calls[k].toolName == name
    ensures n < |calls| ==> calls[n].toolName != name
  {
    if calls == [] || calls[0].toolName != name then 0 else 1 + SameName(calls[1..], name)
  }

  function Flat(steps: seq<seq<PendingCall>>): seq<PendingCall> {
    if steps == [] then [] else Flat(steps[..|steps| - 1]) + steps[|steps| - 1]
  }

  lemma {:induction false} FlatOfOneMore(steps: seq<seq<PendingCall>>, step: seq<PendingCall>)
    ensures Flat(steps + [step]) == Flat(steps) + step
  {
    assert (steps + [step])[..|steps|] == steps;
  }

  /** A step's calls are of one tool, and there are several only of a tool that runs together. */
  predicate IsStep(step: seq<PendingCall>, together: nat -> bool) {
    && step != []
    && (forall k :: 0 <= k < |step| ==> step[k].toolName == step[0].toolName)
    && (|step| > 1 ==> together(step[0].toolName))
  }

  function AllCompleted(blocks: seq<Block>, calls: seq<PendingCall>): (r: seq<Block>)
    ensures |r| == |blocks|
  {
    if calls == [] then blocks
    else WithCallCompleted(AllCompleted(blocks, calls[..|calls| - 1]), calls[|calls| - 1].toolUseId)
  }

  lemma {:induction false} CompletionsEndTheirCalls(blocks: seq<Block>, calls: seq<PendingCall>, id: ToolUseId)
    requires Requested(calls, id) <= Executing(blocks, id)
    ensures Executing(AllCompleted(blocks, calls), id) == Executing(blocks, id) - Requested(calls, id)
  {
    if calls != [] {
      var (before, last) := (calls[..|calls| - 1], calls[|calls| - 1]);
      CompletionsEndTheirCalls(blocks, before, id);
      ACompletionEndsOneCall(AllCompleted(blocks, before), last.toolUseId, id);
    }
  }

  /** Records the results of a step's calls as they return, up to a stop. */
  method RecordResults(transcript: seq<Block>, returned: seq<PendingCall>, stoppedAfter: Option<nat>)
    returns (after: seq<Block>, ended: nat)
    ensures ended <= |returned| && after == AllCompleted(transcript, returned[..ended])
    ensures stoppedAfter.None? ==> ended == |returned|
  {
    after, ended := transcript, 0;
    while ended < |returned| && stoppedAfter != Some(ended)
      invariant ended <= |returned| && after == AllCompleted(transcript, returned[..ended])
    {
      assert returned[..ended + 1][..ended] == returned[..ended];
      after := WithCallCompleted(after, returned[ended].toolUseId);
      ended := ended + 1;
    }
  }

  /** The calls that are still to end are those that execute. */
  ghost predicate StillToEnd(blocks: seq<Block>, left: seq<PendingCall>) {
    forall id: ToolUseId :: Executing(blocks, id) == Requested(left, id)
  }

  lemma {:induction false} AStepEndsItsCalls(
      blocks: seq<Block>, left: seq<PendingCall>, n: nat, returned: seq<PendingCall>)
    requires StillToEnd(blocks, left) && n <= |left| && SameCalls(returned, left[..n])
    ensures StillToEnd(AllCompleted(blocks, returned), left[n..])
  {
    forall id: ToolUseId ensures Executing(AllCompleted(blocks, returned), id) == Requested(left[n..], id) {
      assert left == left[..n] + left[n..];
      RequestedInBoth(left[..n], left[n..], id);
      assert Requested(returned, id) == Requested(left[..n], id);
      CompletionsEndTheirCalls(blocks, returned, id);
    }
  }

  /** What ended and what is left are the requested calls, each once. */
  ghost predicate EachOnce(ended: seq<PendingCall>, left: seq<PendingCall>, calls: seq<PendingCall>) {
    forall id: ToolUseId :: Requested(ended, id) + Requested(left, id) == Requested(calls, id)
  }

  lemma {:induction false} AStepEndsEachOnce(
      ended: seq<PendingCall>, left: seq<PendingCall>, calls: seq<PendingCall>, n: nat,
                          returned: seq<PendingCall>)
    requires EachOnce(ended, left, calls) && n <= |left| && SameCalls(returned, left[..n])
    ensures EachOnce(ended + returned, left[n..], calls)
  {
    forall id: ToolUseId
      ensures Requested(ended + returned, id) + Requested(left[n..], id) == Requested(calls, id)
    {
      assert left == left[..n] + left[n..];
      RequestedInBoth(left[..n], left[n..], id);
      RequestedInBoth(ended, returned, id);
      assert Requested(returned, id) == Requested(left[..n], id);
      assert Requested(ended, id) + Requested(left, id) == Requested(calls, id);
    }
  }

  lemma {:induction false} AllStillToEnd(blocks: seq<Block>)
    ensures StillToEnd(blocks, PendingCalls(blocks)) && EachOnce([], PendingCalls(blocks), PendingCalls(blocks))
  {
    forall id: ToolUseId ensures Executing(blocks, id) == Requested(PendingCalls(blocks), id) {
      PendingCallsAreTheExecuting(blocks, id);
    }
  }

  lemma {:induction false} NoneLeftToEnd(blocks: seq<Block>)
    requires StillToEnd(blocks, [])
    ensures !AnyExecuting(blocks)
  {
    forall id: ToolUseId ensures Executing(blocks, id) == 0 {
      assert Executing(blocks, id) == Requested([], id);
    }
    NoneExecutes(blocks);
  }

  lemma {:induction false} NothingLeft(ended: seq<PendingCall>, calls: seq<PendingCall>)
    requires EachOnce(ended, [], calls)
    ensures SameCalls(ended, calls)
  {
    forall id: ToolUseId ensures Requested(ended, id) == Requested(calls, id) {
      assert Requested(ended, id) + Requested([], id) == Requested(calls, id);
    }
  }

  /** How far the calls of a response have run. */
  ghost predicate RunsInSteps(steps: seq<seq<PendingCall>>, left: seq<PendingCall>, together: nat -> bool,
                              calls: seq<PendingCall>) {
    && (forall k :: 0 <= k < |steps| ==> IsStep(steps[k], together))
    && Flat(steps) + left == calls
  }

  lemma {:induction false} OneMoreStep(steps: seq<seq<PendingCall>>, left: seq<PendingCall>, together: nat -> bool,
                    calls: seq<PendingCall>, n: nat)
    requires RunsInSteps(steps, left, together, calls) && left != [] && n == StepLength(left, together)
    ensures RunsInSteps(steps + [left[..n]], left[n..], together, calls)
  {
    FlatOfOneMore(steps, left[..n]);
    assert left == left[..n] + left[n..];
    assert Flat(steps) + left[..n] + left[n..] == Flat(steps) + left;
  }

  lemma {:induction false} EndingWhatIsLeft(
      before: seq<Block>, ended: seq<PendingCall>, left: seq<PendingCall>, calls: seq<PendingCall>)
    requires StillToEnd(before, left) && EachOnce(ended, left, calls)
    ensures !AnyExecuting(AllCompleted(before, left)) && SameCalls(ended + left, calls)
  {
    assert left[..|left|] == left && left[|left|..] == [];
    AStepEndsItsCalls(before, left, |left|, left);
    NoneLeftToEnd(AllCompleted(before, left));
    AStepEndsEachOnce(ended, left, calls, |left|, left);
    NothingLeft(ended + left, calls);
  }

  /** Runs the calls the last response requested, in steps. The steps that started, with the calls that
      a message sent now left unrun, are the requested calls in their order; each call ends once, in its
      step; and none executes afterwards, unless a stop came. */
  method RunTools(transcript: seq<Block>, together: nat -> bool, world: (nat, seq<PendingCall>) -> StepWorld)
    returns (after: seq<Block>, stopped: bool, steps: seq<seq<PendingCall>>, left: seq<PendingCall>,
             ended: seq<PendingCall>)
    requires forall n, step :: SameCalls(world(n, step).returned, step)
    ensures |after| == |transcript| && RunsInSteps(steps, left, together, PendingCalls(transcript))
    ensures !stopped ==> SameCalls(ended, PendingCalls(transcript)) && !AnyExecuting(after)
  {
    var calls := PendingCalls(transcript);
    after, stopped, steps, left, ended := transcript, false, [], calls, [];
    AllStillToEnd(transcript);
    while left != []
      invariant |after| == |transcript| && !stopped
      invariant RunsInSteps(steps, left, together, calls)
      invariant StillToEnd(after, left) && EachOnce(ended, left, calls)
      decreases |left|
    {
      var n := StepLength(left, together);
      var step := left[..n];
      var now := world(|steps|, step);
      if now.stopped {
        stopped := true;
        return;
      }
      if now.sendNow {
        // What is left ends unrun for the message.
        EndingWhatIsLeft(after, ended, left, calls);
        after := AllCompleted(after, left);
        ended := ended + left;
        return;
      }
      OneMoreStep(steps, left, together, calls, n);
      steps := steps + [step];
      AStepEndsItsCalls(after, left, n, now.returned);
      AStepEndsEachOnce(ended, left, calls, n, now.returned);
      left := left[n..];
      var recorded;
      after, recorded := RecordResults(after, now.returned, now.stoppedAfter);
      ended := ended + now.returned[..recorded];
      if recorded < |now.returned| {
        stopped := true;
        return;
      }
      assert now.returned[..recorded] == now.returned;
    }
    NoneLeftToEnd(after);
    NothingLeft(ended, calls);
  }

  // A turn.

  const MAX_AUTO_COMPACTIONS := 3
  const MAX_FILTERED_RESUMES := 3

  datatype Streamed = AnsweredReply | FilteredReply | FailedReply | StoppedReply

  /** What happens in a round of a turn: what each part makes of the transcript, and how it ends. No part
      but the stream leaves a call executing that did not execute. */
  datatype Round = Round(messageFirst: bool, before: seq<Block>, stream: seq<Block> -> seq<Block>, streamed: Streamed,
                         stoppedAfter: bool, agentMessages: seq<Block>, together: nat -> bool,
                         world: (nat, seq<PendingCall>) -> StepWorld, sinceTools: seq<Block>, messageAfter: bool,
                         reached: bool, compacts: Option<seq<Block> -> seq<Block>>, gains: bool, arrived: bool,
                         written: seq<Block>)

  datatype TurnEnd = TurnAnswered | TurnFailed | TurnStopped | TurnGoesOn

  ghost predicate ExecutesNothing(blocks: seq<Block>) {
    !AnyExecuting(blocks)
  }

  /** What the rounds may do. */
  ghost predicate IsRound(r: Round) {
    && ExecutesNothing(r.before) && ExecutesNothing(r.agentMessages) && ExecutesNothing(r.sinceTools)
    && ExecutesNothing(r.written)
    && (r.compacts.Some? ==> forall blocks :: ExecutesNothing(blocks) ==> ExecutesNothing(r.compacts.value(blocks)))
    && (forall n, step :: SameCalls(r.world(n, step).returned, step))
  }

  lemma {:induction false} NothingMoreExecutes(a: seq<Block>, b: seq<Block>)
    requires ExecutesNothing(a) && ExecutesNothing(b)
    ensures ExecutesNothing(a + b)
  {
    forall k | 0 <= k < |a + b| ensures !IsExecuting((a + b)[k]) {
      if k < |a| { assert (a + b)[k] == a[k]; } else { assert (a + b)[k] == b[k - |a|]; }
    }
  }

  lemma {:induction false} AResumeExecutesNothing(resume: Block)
    requires !IsExecuting(resume)
    ensures ExecutesNothing([resume])
  {
  }

  // When a turn goes on, and how it ends.

  /** A round as it went: the transcript before it, after its stream, once the calls it requested ran, and at its
      end; the calls, whether a stop ended them, and how often the turn had gone on after a filtered reply and
      after a pass. */
  datatype Played = Played(before: seq<Block>, streamed: seq<Block>, requested: seq<PendingCall>, ran: seq<Block>,
                           toolsStopped: bool, after: seq<Block>, filtered: nat, compactions: nat)

  /** The vendor's filter stopped the reply and the turn may still go on after it. */
  predicate ResumesAfterAFilter(r: Round, p: Played, oneRequest: bool) {
    !r.messageFirst && r.streamed.FilteredReply? && !oneRequest && p.filtered < MAX_FILTERED_RESUMES
  }

  /** The reply was answered, its calls ran, and no message ends the turn here. */
  predicate RunsItsCalls(r: Round, p: Played, oneRequest: bool) {
    && !r.messageFirst && r.streamed.AnsweredReply? && !r.stoppedAfter && !oneRequest && !p.toolsStopped
    && !r.messageAfter
  }

  /** A pass follows the calls, and is worth going on for when it gains. */
  predicate Compacts(r: Round, p: Played) {
    r.reached && p.compactions < MAX_AUTO_COMPACTIONS && r.compacts.Some?
  }

  /** The provider is asked again: after a filtered reply, a pass that gained, input that arrived, or calls. */
  predicate GoesOn(r: Round, p: Played, oneRequest: bool) {
    || ResumesAfterAFilter(r, p, oneRequest)
    || (RunsItsCalls(r, p, oneRequest) && ((Compacts(r, p) && r.gains) || r.arrived || p.requested != []))
  }

  /** How the turn ends with a round that it does not go on after. */
  predicate EndsWith(r: Round, p: Played, oneRequest: bool, end: TurnEnd) {
    && (end.TurnStopped? <==>
          !r.messageFirst && (r.streamed.StoppedReply? || (r.streamed.AnsweredReply? && (r.stoppedAfter || (!oneRequest && p.toolsStopped)))))
    && (end.TurnFailed? <==> !r.messageFirst && (r.streamed.FailedReply? || r.streamed.FilteredReply?))
    && !end.TurnGoesOn?
  }

  /** What the round leaves once its calls ran: what came since, and what a pass made of it. */
  function Remains(r: Round, p: Played): seq<Block> {
    if Compacts(r, p) then r.compacts.value(p.ran + r.sinceTools) else p.ran + r.sinceTools
  }

  /** What the round wrote. */
  ghost predicate Plays(r: Round, p: Played, oneRequest: bool, resume: Block) {
    && (r.messageFirst ==> p.after == p.before)
    && (!r.messageFirst ==> p.streamed == r.stream(p.before + r.before))
    && (ResumesAfterAFilter(r, p, oneRequest) ==> p.after == AllSettled(p.streamed) + [resume])
    && (!r.messageFirst && r.streamed.AnsweredReply? && !r.stoppedAfter && !oneRequest ==>
          p.requested == PendingCalls(p.streamed + r.agentMessages) && |p.ran| == |p.streamed + r.agentMessages|)
    && (RunsItsCalls(r, p, oneRequest) ==>
          && !AnyExecuting(p.ran)
          && p.after == if Compacts(r, p) && r.gains then Remains(r, p) + [resume]
                        else if r.arrived then Remains(r, p) + r.written
                        else Remains(r, p))
  }

  /** One after the other: each round begins with what the one before it left and counts what came before. */
  ghost predicate Chained(rounds: seq<Round>, played: seq<Played>, oneRequest: bool, transcript: seq<Block>) {
    && |played| <= |rounds|
    && (played != [] ==> played[0].before == transcript && played[0].filtered == 0 && played[0].compactions == 0)
    && forall k :: 0 <= k < |played| - 1 ==> Next(rounds[k], played[k], played[k + 1], oneRequest)
  }

  ghost predicate Next(r: Round, p: Played, q: Played, oneRequest: bool) {
    && q.before == p.after
    && q.filtered == Filtered(r, p, oneRequest) && q.compactions == Compactions(r, p, oneRequest)
  }

  /** The rounds a turn used: it goes on after each but the last, and after the last only when the rounds given
      are used up. */
  ghost predicate TakesTheRounds(rounds: seq<Round>, played: seq<Played>, oneRequest: bool, resume: Block, end: TurnEnd) {
    && |played| <= |rounds|
    && (forall k :: 0 <= k < |played| ==> Plays(rounds[k], played[k], oneRequest, resume))
    && (forall k :: 0 <= k < |played| - 1 ==> GoesOn(rounds[k], played[k], oneRequest))
    && (if end.TurnGoesOn? then
          |played| == |rounds| && (played != [] ==> GoesOn(rounds[|played| - 1], played[|played| - 1], oneRequest))
        else
          && played != [] && !GoesOn(rounds[|played| - 1], played[|played| - 1], oneRequest)
          && EndsWith(rounds[|played| - 1], played[|played| - 1], oneRequest, end))
  }

  /** Plays one round; no end means that the turn goes on. */
  method PlayRound(round: Round, before: seq<Block>, oneRequest: bool, resume: Block, filtered: nat, compactions: nat)
    returns (p: Played, end: Option<TurnEnd>)
    requires ExecutesNothing(before) && !IsExecuting(resume) && IsRound(round)
    ensures p.before == before && p.filtered == filtered && p.compactions == compactions
    ensures Plays(round, p, oneRequest, resume)
    ensures end.None? <==> GoesOn(round, p, oneRequest)
    ensures end.Some? ==> EndsWith(round, p, oneRequest, end.value)
    ensures end.None? || (end.value.TurnAnswered? && !oneRequest) ==> ExecutesNothing(p.after)
  {
    p := Played(before, [], [], [], false, before, filtered, compactions);
    AResumeExecutesNothing(resume);
    if round.messageFirst {
      return p, Some(TurnAnswered);
    }
    var streamed := round.stream(before + round.before);
    p := p.(streamed := streamed, after := streamed);
    if round.streamed.FilteredReply? && filtered < MAX_FILTERED_RESUMES && !oneRequest {
      NothingMoreExecutes(AllSettled(streamed), [resume]);
      return p.(after := AllSettled(streamed) + [resume]), None;
    }
    if !round.streamed.AnsweredReply? {
      return p, Some(if round.streamed.StoppedReply? then TurnStopped else TurnFailed);
    }
    if round.stoppedAfter {
      return p, Some(TurnStopped);
    }
    if oneRequest {
      return p, Some(TurnAnswered);
    }
    p := RunTheCalls(p, round);
    if p.toolsStopped {
      return p, Some(TurnStopped);
    }
    NothingMoreExecutes(p.ran, round.sinceTools);
    p := p.(after := p.ran + round.sinceTools);
    if round.messageAfter {
      return p, Some(TurnAnswered);
    }
    p, end := AfterTheCalls(p, round, resume);
  }

  /** Runs the calls the reply requested. */
  method RunTheCalls(before: Played, round: Round) returns (p: Played)
    requires IsRound(round)
    ensures p == before.(requested := p.requested, ran := p.ran, toolsStopped := p.toolsStopped, after := p.after)
    ensures p.requested == PendingCalls(before.streamed + round.agentMessages)
    ensures |p.ran| == |before.streamed + round.agentMessages|
    ensures !p.toolsStopped ==> ExecutesNothing(p.ran)
  {
    var transcript := before.streamed + round.agentMessages;
    var after, stopped, steps, left, ended := RunTools(transcript, round.together, round.world);
    p := before.(requested := PendingCalls(transcript), ran := after, toolsStopped := stopped, after := after);
  }

  /** Whether the turn goes on once its calls ran: a pass gained, input arrived, or there were calls. */
  method AfterTheCalls(before: Played, round: Round, resume: Block) returns (p: Played, end: Option<TurnEnd>)
    requires IsRound(round) && !IsExecuting(resume) && ExecutesNothing(before.ran + round.sinceTools)
    ensures p == before.(after := p.after) && ExecutesNothing(p.after)
    ensures p.after == if Compacts(round, before) && round.gains then Remains(round, before) + [resume]
                       else if round.arrived then Remains(round, before) + round.written
                       else Remains(round, before)
    ensures end == if (Compacts(round, before) && round.gains) || round.arrived || before.requested != []
                   then None else Some(TurnAnswered)
  {
    AResumeExecutesNothing(resume);
    var after := before.ran + round.sinceTools;
    if round.reached && before.compactions < MAX_AUTO_COMPACTIONS && round.compacts.Some? {
      after := round.compacts.value(after);
      if round.gains {
        NothingMoreExecutes(after, [resume]);
        return before.(after := after + [resume]), None;
      }
    }
    if round.arrived {
      NothingMoreExecutes(after, round.written);
      return before.(after := after + round.written), None;
    }
    p := before.(after := after);
    end := if before.requested != [] then None else Some(TurnAnswered);
  }

  /** A turn's requests and tool rounds, with the rounds it used. It goes on exactly after a filtered reply it may
      resume from, a pass that gained, input that arrived or calls that ran. A turn that answers, or ends for a
      message sent now, leaves no call executing, but in a session copy, whose calls never run. It goes on after
      at most three filtered replies and compacts at most three times after its responses. */
  method RunTurn(transcript: seq<Block>, oneRequest: bool, rounds: seq<Round>, resume: Block)
    returns (end: TurnEnd, after: seq<Block>, played: seq<Played>)
    requires ExecutesNothing(transcript) && !IsExecuting(resume)
    requires forall k :: 0 <= k < |rounds| ==> IsRound(rounds[k])
    ensures TakesTheRounds(rounds, played, oneRequest, resume, end) && Chained(rounds, played, oneRequest, transcript)
    ensures after == if played == [] then transcript else played[|played| - 1].after
    ensures end.TurnAnswered? && !oneRequest ==> ExecutesNothing(after)
    ensures end.TurnGoesOn? ==> ExecutesNothing(after)
    ensures forall k :: 0 <= k < |played| ==>
                          played[k].filtered <= MAX_FILTERED_RESUMES && played[k].compactions <= MAX_AUTO_COMPACTIONS
  {
    after, played := transcript, [];
    var filtered: nat := 0;
    var compactions: nat := 0;
    while |played| < |rounds|
      invariant ExecutesNothing(after)
      invariant filtered <= MAX_FILTERED_RESUMES && compactions <= MAX_AUTO_COMPACTIONS
      invariant after == if played == [] then transcript else played[|played| - 1].after
      invariant PlayedSoFar(rounds, played, oneRequest, resume, filtered, compactions)
      invariant Chained(rounds, played, oneRequest, transcript)
      decreases |rounds| - |played|
    {
      var round := rounds[|played|];
      assert IsRound(round);
      var p, reached := PlayRound(round, after, oneRequest, resume, filtered, compactions);
      OneMorePlayed(rounds, played, p, oneRequest, transcript, filtered, compactions, resume);
      if reached.Some? {
        TheTurnEnds(rounds, played, p, oneRequest, resume, filtered, compactions, reached.value);
        return reached.value, p.after, played + [p];
      }
      TheTurnGoesOn(rounds, played, p, oneRequest, resume, filtered, compactions);
      played := played + [p];
      after := p.after;
      filtered := Filtered(round, p, oneRequest);
      compactions := Compactions(round, p, oneRequest);
    }
    end := TurnGoesOn;
  }

  /** How often the turn went on after a filtered reply once the round is over, and after a pass. */
  function Filtered(r: Round, p: Played, oneRequest: bool): nat {
    p.filtered + if ResumesAfterAFilter(r, p, oneRequest) then 1 else 0
  }

  function Compactions(r: Round, p: Played, oneRequest: bool): nat {
    p.compactions + if RunsItsCalls(r, p, oneRequest) && Compacts(r, p) && r.gains then 1 else 0
  }

  /** The turn went on after each round so far; `filtered` and `compactions` count for the next. */
  ghost predicate PlayedSoFar(
      rounds: seq<Round>, played: seq<Played>, oneRequest: bool, resume: Block, filtered: nat, compactions: nat) {
    && |played| <= |rounds|
    && (forall k :: 0 <= k < |played| ==>
                      && Plays(rounds[k], played[k], oneRequest, resume) && GoesOn(rounds[k], played[k], oneRequest)
                      && played[k].filtered <= MAX_FILTERED_RESUMES && played[k].compactions <= MAX_AUTO_COMPACTIONS)
    && (if played == [] then filtered == 0 && compactions == 0
        else
          && filtered == Filtered(rounds[|played| - 1], played[|played| - 1], oneRequest)
          && compactions == Compactions(rounds[|played| - 1], played[|played| - 1], oneRequest))
  }

  lemma {:induction false} OneMorePlayed(
      rounds: seq<Round>, played: seq<Played>, p: Played, oneRequest: bool, transcript: seq<Block>, filtered: nat,
      compactions: nat, resume: Block)
    requires |played| < |rounds| && PlayedSoFar(rounds, played, oneRequest, resume, filtered, compactions)
    requires Chained(rounds, played, oneRequest, transcript)
    requires p.before == (if played == [] then transcript else played[|played| - 1].after)
    requires p.filtered == filtered && p.compactions == compactions
    ensures Chained(rounds, played + [p], oneRequest, transcript)
  {
    var all := played + [p];
    forall k | 0 <= k < |all| - 1 ensures Next(rounds[k], all[k], all[k + 1], oneRequest) {
      if k < |played| - 1 {
        assert all[k] == played[k] && all[k + 1] == played[k + 1];
      }
    }
  }

  lemma {:induction false} TheTurnGoesOn(
      rounds: seq<Round>, played: seq<Played>, p: Played, oneRequest: bool, resume: Block, filtered: nat, compactions: nat)
    requires |played| < |rounds| && PlayedSoFar(rounds, played, oneRequest, resume, filtered, compactions)
    requires p.filtered == filtered <= MAX_FILTERED_RESUMES && p.compactions == compactions <= MAX_AUTO_COMPACTIONS
    requires Plays(rounds[|played|], p, oneRequest, resume) && GoesOn(rounds[|played|], p, oneRequest)
    ensures PlayedSoFar(rounds, played + [p], oneRequest, resume,
                        Filtered(rounds[|played|], p, oneRequest), Compactions(rounds[|played|], p, oneRequest))
  {
    var all := played + [p];
    assert forall k :: 0 <= k < |played| ==> all[k] == played[k];
  }

  lemma {:induction false} TheTurnEnds(
      rounds: seq<Round>, played: seq<Played>, p: Played, oneRequest: bool, resume: Block, filtered: nat,
      compactions: nat, end: TurnEnd)
    requires |played| < |rounds| && PlayedSoFar(rounds, played, oneRequest, resume, filtered, compactions)
    requires Plays(rounds[|played|], p, oneRequest, resume) && !GoesOn(rounds[|played|], p, oneRequest)
    requires EndsWith(rounds[|played|], p, oneRequest, end)
    ensures TakesTheRounds(rounds, played + [p], oneRequest, resume, end)
  {
    var all := played + [p];
    assert forall k :: 0 <= k < |played| ==> all[k] == played[k];
  }
}
