/**
 A failed turn that alone holds an idle session takes the input that arrives: it is written into the
 failed turn, and none waits (crates/agent-session/src/core.rs). That needs a turn to write into.
 */
module FailedTurns {
  import opened Wrappers
  import opened Blocks
  import opened Inputs
  import opened SessionCores
  import opened SessionRuns
  import opened MessageRuns
  import opened Recovery

  /** The record of a failure that left a turn unfinished. */
  predicate IsFailure(block: Block) {
    block.body.Error? && !block.body.outsideTurn
  }

  predicate HasTurn(blocks: seq<Block>) {
    exists k :: 0 <= k < |blocks| && TurnOf(blocks[k]).Some?
  }

  /** Each failure comes after a block of some turn. */
  ghost predicate EachFailureHasATurn(blocks: seq<Block>) {
    forall k :: 0 <= k < |blocks| && IsFailure(blocks[k]) ==> HasTurn(blocks[..k])
  }

  /** When a failed turn alone holds an idle session, no input waits. */
  ghost predicate NoInputWaits(c: Core) {
    c.activity.Idle? && !c.held && FailedTurnHolds(c) ==> c.inputs.entries == []
  }

  lemma {:induction false} TheLastTurnIsThereExactlyWhen(blocks: seq<Block>)
    ensures LastTurn(blocks).Some? <==> HasTurn(blocks)
  {
    if blocks != [] {
      var before := blocks[..|blocks| - 1];
      TheLastTurnIsThereExactlyWhen(before);
      assert forall k :: 0 <= k < |before| ==> before[k] == blocks[k];
    }
  }

  lemma {:induction false} ATurnFailureIsAFailure(blocks: seq<Block>)
    requires TurnFailure(blocks).Some?
    ensures exists k :: 0 <= k < |blocks| && IsFailure(blocks[k])
  {
    var before := blocks[..|blocks| - 1];
    if !IsRecord(blocks[|blocks| - 1]) {
      ATurnFailureIsAFailure(before);
      var k :| 0 <= k < |before| && IsFailure(before[k]);
      assert IsFailure(blocks[k]);
    } else {
      assert IsFailure(blocks[|blocks| - 1]);
    }
  }

  lemma {:induction false} AFailedTurnIsThere(blocks: seq<Block>)
    requires EachFailureHasATurn(blocks) && TurnFailure(blocks).Some?
    ensures LastTurn(blocks).Some?
  {
    ATurnFailureIsAFailure(blocks);
    var k :| 0 <= k < |blocks| && IsFailure(blocks[k]);
    var j :| 0 <= j < |blocks[..k]| && TurnOf(blocks[..k][j]).Some?;
    assert TurnOf(blocks[j]).Some?;
    TheLastTurnIsThereExactlyWhen(blocks);
  }

  // What keeps it.

  /** `after` is `before` with blocks added that record no failure. */
  ghost predicate OnlyAdds(before: seq<Block>, after: seq<Block>) {
    && |before| <= |after| && after[..|before|] == before
    && forall k :: |before| <= k < |after| ==> !IsFailure(after[k])
  }

  lemma {:induction false} AddingKeepsTurns(before: seq<Block>, after: seq<Block>)
    requires EachFailureHasATurn(before) && OnlyAdds(before, after)
    ensures EachFailureHasATurn(after)
  {
    forall k | 0 <= k < |after| && IsFailure(after[k]) ensures HasTurn(after[..k]) {
      assert before[k] == after[k] && before[..k] == after[..k];
    }
  }

  lemma {:induction false} CuttingKeepsTurns(blocks: seq<Block>, cut: nat)
    requires EachFailureHasATurn(blocks) && cut <= |blocks|
    ensures EachFailureHasATurn(blocks[..cut])
  {
    forall k | 0 <= k < cut && IsFailure(blocks[..cut][k]) ensures HasTurn(blocks[..cut][..k]) {
      assert blocks[..cut][..k] == blocks[..k];
    }
  }

  lemma {:induction false} InsertingKeepsTurns(blocks: seq<Block>, at: nat, block: Block)
    requires EachFailureHasATurn(blocks) && at <= |blocks| && !IsFailure(block)
    ensures EachFailureHasATurn(blocks[..at] + [block] + blocks[at..])
  {
    var after := blocks[..at] + [block] + blocks[at..];
    forall k | 0 <= k < |after| && IsFailure(after[k]) ensures HasTurn(after[..k]) {
      var was := if k < at then k else k - 1;
      assert blocks[was] == after[k];
      var j :| 0 <= j < |blocks[..was]| && TurnOf(blocks[..was][j]).Some?;
      var now := if j < at then j else j + 1;
      assert after[..k][now] == blocks[j];
    }
  }

  lemma {:induction false} SettlingKeepsTurns(blocks: seq<Block>, settled: seq<Block>)
    requires EachFailureHasATurn(blocks) && |settled| == |blocks|
    requires forall k :: 0 <= k < |blocks| ==> settled[k] == blocks[k] || settled[k] == Settled(blocks[k])
    ensures EachFailureHasATurn(settled)
  {
    forall k | 0 <= k < |settled| && IsFailure(settled[k]) ensures HasTurn(settled[..k]) {
      var j :| 0 <= j < |blocks[..k]| && TurnOf(blocks[..k][j]).Some?;
      assert TurnOf(settled[..k][j]) == TurnOf(blocks[j]);
    }
  }

  lemma {:induction false} WrittenInputsHoldNoFailure(
      inputs: seq<Input>, turn: TurnId, reports: seq<Input>, next: BlockId)
    requires forall k :: 0 <= k < |reports| ==> reports[k].Report?
    ensures forall k :: 0 <= k < |BlocksOf(inputs, turn, reports, next)| ==>
              !IsFailure(BlocksOf(inputs, turn, reports, next)[k])
    decreases |inputs|
  {
    if inputs != [] {
      WrittenInputsHoldNoFailure(inputs[1..], turn, reports, next);
      WrittenInputsHoldNoFailure(inputs[1..], turn, [], next);
    }
  }

  lemma {:induction false} WritingInputsOnlyAdds(c: Core, turn: TurnId, take: Take, seen: set<nat>, next: nat)
    ensures OnlyAdds(c.transcript, InputsWritten(c, turn, take, seen, next).transcript)
  {
    var taken := Taken(WithoutSeen(c.inputs, seen).entries, take);
    WrittenInputsHoldNoFailure(taken, turn, Inputs.Reports(taken), next);
  }

  lemma {:induction false} QueuingWritesNothing(c: Core, ahead: nat)
    requires ahead <= |c.pending|
    ensures SteersQueued(c, ahead).transcript == c.transcript
    decreases |c.inputs.entries|
  {
    var at := SteerAt(c.inputs.entries, None);
    if at < |c.inputs.entries| {
      var message := AsMessage(c.inputs.entries[at]);
      QueuingWritesNothing(c.(inputs := Happened(c.inputs, TakesFirstSteer),
                              pending := c.pending[..ahead] + [message] + c.pending[ahead..]),
                           ahead + 1);
    }
  }

  lemma {:induction false} WritingIntoTheFailedTurnOnlyAdds(c: Core, seen: set<nat>, next: nat)
    ensures OnlyAdds(c.transcript, WrittenIntoFailedTurn(c, seen, next).transcript)
  {
    if LastTurn(c.transcript).Some? {
      WritingInputsOnlyAdds(c, LastTurn(c.transcript).value, Everything, seen, next);
    }
  }

  lemma {:induction false} StartingNextOnlyAdds(c: Core, seen: set<nat>, next: nat)
    ensures OnlyAdds(c.transcript, StartNext(c, seen, next).transcript)
  {
    if c.disposing {
      QueuingWritesNothing(c, 0);
    } else {
      WritingIntoTheFailedTurnOnlyAdds(c.(activity := Idle), seen, next);
    }
  }

  lemma {:induction false} WakingOnlyAdds(c: Core, seen: set<nat>, next: nat)
    ensures OnlyAdds(c.transcript, Woken(c, seen, next).transcript)
  {
    StartingNextOnlyAdds(c, seen, next);
  }

  lemma {:induction false} PushingOnlyAdds(c: Core, kind: ActionKind, turn: TurnId, seen: set<nat>, next: nat)
    ensures OnlyAdds(c.transcript, Pushed(c, kind, turn, seen, next).transcript)
  {
    StartingNextOnlyAdds(c.(pending := c.pending + [Pending(kind, turn)]), seen, next);
  }

  lemma {:induction false} AnAgentMessageOnlyAdds(c: Core, e: Event, seen: set<nat>, next: nat)
    requires e.SendsAgentMessage?
    ensures OnlyAdds(c.transcript, AgentMessageAdmitted(c, e.id, e.content, e.fromProduct, seen, next).transcript)
  {
    WakingOnlyAdds(c, seen, next);
    WakingOnlyAdds(c.(inputs := Added(c.inputs, Agent(e.id, e.content))), seen, next);
  }

  lemma {:induction false} AnAdmissionOnlyAdds(c: Core, e: Event, seen: set<nat>, next: nat)
    requires Sound(c) && Enabled(c, e) && Admits(e)
    ensures OnlyAdds(c.transcript, Next(c, e, seen, next).transcript)
  {
    match e
    case SendsMessage(id, content, scheduled) => PushingOnlyAdds(c, Send(content, scheduled), id, seen, next);
    case AsksForAction(kind, turn) => PushingOnlyAdds(c, kind, turn, seen, next);
    case AsksForEdit(turn) => PushingOnlyAdds(c.(preparing := true), Edit, turn, seen, next);
    case CompactsIdle(turn) => PushingOnlyAdds(c, Compact(true), turn, seen, next);
  }

  /** What comes from outside adds no failure to the transcript. */
  lemma {:induction false} AStepFromOutsideOnlyAdds(c: Core, e: Event, seen: set<nat>, next: nat)
    requires Sound(c) && Enabled(c, e) && IsFromOutside(e)
    ensures OnlyAdds(c.transcript, Next(c, e, seen, next).transcript)
  {
    if Admits(e) {
      AnAdmissionOnlyAdds(c, e, seen, next);
    } else if e.Steers? {
      PushingOnlyAdds(c, Send(e.content, false), e.id, seen, next);
    } else if e.SendsAgentMessage? {
      AnAgentMessageOnlyAdds(c, e, seen, next);
    } else if e.Reports? {
      WakingOnlyAdds(c.(inputs := Added(c.inputs, e.report)), seen, next);
    } else if e.ReleasesInput? {
      WakingOnlyAdds(c.(held := false), seen, next);
    } else if e.PassesFailure? {
      WakingOnlyAdds(c.(passedFailure := Some(e.failure)), seen, next);
    }
  }

  // Where a failure is left without a turn.

  /** The event records a failure in a history that names no turn, or rewrites one so. */
  ghost predicate Orphans(c: Core, e: Event) {
    match e
    case Writes(block) => IsFailure(block) && LastTurn(c.transcript).None?
    case Rewrites(blocks) => !EachFailureHasATurn(blocks)
    case AcceptsEdit(blocks) => !EachFailureHasATurn(blocks)
    case _ => false
  }

  /** A closed session starts nothing again. */
  ghost predicate FailuresHaveTurns(c: Core) {
    c.activity.Closed? || EachFailureHasATurn(c.transcript)
  }

  lemma {:induction false} WritingABlockKeepsTurns(c: Core, block: Block)
    requires EachFailureHasATurn(c.transcript) && !Orphans(c, Writes(block))
    ensures EachFailureHasATurn(c.transcript + [block])
  {
    var after := c.transcript + [block];
    TheLastTurnIsThereExactlyWhen(c.transcript);
    forall k | 0 <= k < |after| && IsFailure(after[k]) ensures HasTurn(after[..k]) {
      assert after[..k] == c.transcript[..k];
      if k == |c.transcript| { assert after[..k] == c.transcript; }
    }
  }

  lemma {:induction false} EndingCallsKeepsTurns(c: Core)
    requires EachFailureHasATurn(c.transcript)
    ensures EachFailureHasATurn(CallsAborted(c).transcript)
  {
    SettlingKeepsTurns(c.transcript, AllSettled(c.transcript));
  }

  lemma {:induction false} WritingAStopKeepsTurns(c: Core, reason: Reason, seen: set<nat>, next: nat)
    requires EachFailureHasATurn(c.transcript)
    requires c.activity.Running? && (c.activity.run.unwritten ==> c.activity.run.kind.Send?)
    ensures EachFailureHasATurn(StopWritten(c, reason, seen, next).transcript)
  {
    var given := if reason.Stop? && c.activity.run.givingBack then GivenBack(c) else c;
    var at := UserBlockAt(c.transcript, c.activity.run.turn);
    if at.Some? { CuttingKeepsTurns(c.transcript, at.value); }
    var settled := UnwrittenSettled(given, reason, next);
    assert OnlyAdds(given.transcript, settled.transcript);
    AddingKeepsTurns(given.transcript, settled.transcript);
    WritingInputsOnlyAdds(settled, settled.activity.run.turn, AllButSteers, seen, next);
    AddingKeepsTurns(settled.transcript, InputsWritten(settled, settled.activity.run.turn, AllButSteers, seen, next).transcript);
  }

  lemma {:induction false} RecordingAStopKeepsTurns(c: Core, reason: Reason, seen: set<nat>, next: nat)
    requires EachFailureHasATurn(c.transcript) && !reason.Shutdown?
    requires c.activity.Running? && (c.activity.run.unwritten ==> c.activity.run.kind.Send?)
    ensures EachFailureHasATurn(StopRecorded(c, reason, seen, next).transcript)
  {
    WritingAStopKeepsTurns(c, reason, seen, next);
    var written := StopWritten(c, reason, seen, next);
    EndingCallsKeepsTurns(written);
    var ended := CallsAborted(written);
    var marked := Marked(ended, reason, c.activity.run.givingBack, written.activity.run.began, next);
    assert OnlyAdds(ended.transcript, marked.transcript);
    AddingKeepsTurns(ended.transcript, marked.transcript);
  }

  lemma {:induction false} FailingKeepsTurns(c: Core, seen: set<nat>, next: nat)
    requires EachFailureHasATurn(c.transcript) && c.activity.Running?
    ensures EachFailureHasATurn(Failed(c, seen, next).transcript)
  {
    var written := InputsWritten(c, c.activity.run.turn, AllButSteers, seen, next);
    WritingInputsOnlyAdds(c, c.activity.run.turn, AllButSteers, seen, next);
    AddingKeepsTurns(c.transcript, written.transcript);
    EndingCallsKeepsTurns(written);
  }

  lemma {:induction false} OpeningAContinuationOnlyAdds(c: Core, seen: set<nat>, next: nat)
    requires c.activity.Running?
    ensures OnlyAdds(c.transcript, ContinuationOpened(c, seen, next).transcript)
  {
    WritingInputsOnlyAdds(c, c.activity.run.turn, Everything, seen, next);
  }

  lemma {:induction false} AStepOfTheWorkerKeepsTurns(c: Core, e: Event, seen: set<nat>, next: nat)
    requires Sound(c) && EachFailureHasATurn(c.transcript) && Enabled(c, e) && !IsFromOutside(e) && !Orphans(c, e)
    ensures FailuresHaveTurns(Next(c, e, seen, next))
  {
    match e
    case WritesMessage => AddingKeepsTurns(c.transcript, MessageWritten(c, next).transcript);
    case OpensContinuation =>
      OpeningAContinuationOnlyAdds(c, seen, next);
      AddingKeepsTurns(c.transcript, ContinuationOpened(c, seen, next).transcript);
    case WritesInputs(take) =>
      WritingInputsOnlyAdds(c, c.activity.run.turn, take, seen, next);
      AddingKeepsTurns(c.transcript, InputsWritten(c, c.activity.run.turn, take, seen, next).transcript);
    case Writes(block) => WritingABlockKeepsTurns(c, block);
    case Inserts(at, block) => InsertingKeepsTurns(c.transcript, at, block);
    case CompletesCall(at) => SettlingKeepsTurns(c.transcript, c.transcript[at := Settled(c.transcript[at])]);
    case RecordsStop => RecordingAStopKeepsTurns(c, c.activity.run.cancel.value, seen, next);
    case Fails => FailingKeepsTurns(c, seen, next);
    case StartsNext =>
      StartingNextOnlyAdds(c, seen, next);
      AddingKeepsTurns(c.transcript, StartNext(c, seen, next).transcript);
    case _ =>
  }

  lemma {:induction false} AClosedSessionStaysClosed(c: Core, e: Event, seen: set<nat>, next: nat)
    requires Sound(c) && c.activity.Closed? && Enabled(c, e)
    ensures Next(c, e, seen, next).activity.Closed?
  {
  }

  lemma {:induction false} AStepKeepsTurns(c: Core, e: Event, seen: set<nat>, next: nat)
    requires Sound(c) && FailuresHaveTurns(c) && Enabled(c, e) && !Orphans(c, e)
    ensures FailuresHaveTurns(Next(c, e, seen, next))
  {
    if c.activity.Closed? {
      AClosedSessionStaysClosed(c, e, seen, next);
    } else if IsFromOutside(e) {
      AStepFromOutsideOnlyAdds(c, e, seen, next);
      AddingKeepsTurns(c.transcript, Next(c, e, seen, next).transcript);
    } else {
      AStepOfTheWorkerKeepsTurns(c, e, seen, next);
    }
  }

  lemma {:induction false} WithTurnsNoInputWaits(c: Core)
    requires Sound(c) && FailuresHaveTurns(c)
    ensures NoInputWaits(c)
  {
    if c.activity.Idle? && FailedTurnHolds(c) { AFailedTurnIsThere(c.transcript); }
  }

  /** No event of the run leaves a failure without a turn. */
  ghost predicate NoneOrphans(c: Core, run: seq<Occurrence>)
    requires Sound(c) && Occurs(c, run)
    decreases |run|
  {
    run == []
    || (!Orphans(c, run[0].event)
        && (EveryStepIsSound(c, run[0].event, run[0].seen, run[0].next);
            NoneOrphans(Next(c, run[0].event, run[0].seen, run[0].next), run[1..])))
  }

  /** Over every run in which each failure is recorded in a history that names a turn, no input waits
      where a failed turn alone holds the idle session. */
  lemma {:induction false} EveryRunLeavesNoInputWaiting(c: Core, run: seq<Occurrence>)
    requires Sound(c) && FailuresHaveTurns(c) && Occurs(c, run) && NoneOrphans(c, run)
    ensures FailuresHaveTurns(After(c, run)) && NoInputWaits(After(c, run))
    decreases |run|
  {
    if run == [] {
      WithTurnsNoInputWaits(c);
    } else {
      var (e, seen, next) := (run[0].event, run[0].seen, run[0].next);
      EveryStepIsSound(c, e, seen, next);
      AStepKeepsTurns(c, e, seen, next);
      EveryRunLeavesNoInputWaiting(Next(c, e, seen, next), run[1..]);
    }
  }

  // The rewrites of the session's own leave none without a turn.

  lemma {:induction false} CompactionsHoldNoFailure(blocks: seq<Block>)
    ensures forall k :: 0 <= k < |Compactions(blocks)| ==> !IsFailure(Compactions(blocks)[k])
  {
    if blocks != [] {
      CompactionsHoldNoFailure(blocks[..|blocks| - 1]);
    }
  }

  lemma {:induction false} WhatARetryKeepsHoldsNoFailure(blocks: seq<Block>, turn: TurnId)
    ensures forall k :: 0 <= k < |KeptAfter(blocks, turn)| ==> !IsFailure(KeptAfter(blocks, turn)[k])
  {
    if blocks != [] {
      WhatARetryKeepsHoldsNoFailure(blocks[..|blocks| - 1], turn);
    }
  }

  /** A dropped attempt, an unwound turn and a retry leave no failure without a turn. */
  lemma {:induction false} RecoveryKeepsTurns(blocks: seq<Block>, cut: nat)
    requires EachFailureHasATurn(blocks) && cut <= |blocks|
    ensures EachFailureHasATurn(blocks[..cut]) && EachFailureHasATurn(Unwound(blocks, cut))
    ensures cut < |blocks| && OpensARetriedTurn(blocks, cut) ==> EachFailureHasATurn(Rewound(blocks, cut))
  {
    CuttingKeepsTurns(blocks, cut);
    CompactionsHoldNoFailure(blocks[cut..]);
    AddingKeepsTurns(blocks[..cut], Unwound(blocks, cut));
    if cut < |blocks| && OpensARetriedTurn(blocks, cut) {
      CuttingKeepsTurns(blocks, cut + 1);
      WhatARetryKeepsHoldsNoFailure(blocks[cut + 1..], TurnOf(blocks[cut]).value);
      AddingKeepsTurns(blocks[..cut + 1], Rewound(blocks, cut));
    }
  }

  // An input that waits.

  /** While a failed turn alone holds the idle session, an agent's message waits if and only if the
      history names no turn to write it into. */
  lemma {:induction false} AnAgentMessageWaitsExactlyWhen(c: Core, id: MessageId, content: nat, seen: set<nat>, next: nat)
    requires Sound(c) && c.activity.Idle? && !c.held && !c.preparing && FailedTurnHolds(c)
    requires AgentMessageOf(c, id).None? && !HoldsBlock(c.transcript, id) && !ContainsInput(c.inputs.entries, id)
    ensures var after := AgentMessageAdmitted(c, id, content, false, seen, next);
            after.activity.Idle? && (after.inputs.entries != [] <==> LastTurn(c.transcript).None?)
  {
    var added := c.(inputs := Added(c.inputs, Agent(id, content)));
    SteersStayAway(c.inputs.entries, Agent(id, content));
    assert !WantsContinuation(added);
    if LastTurn(c.transcript).Some? {
      WritingInputsChangesLittle(added.(activity := Idle), LastTurn(c.transcript).value, Everything, seen, next);
    }
  }

  // A run that leaves one waiting.

  function At(e: Event): Occurrence {
    Occurrence(e, {}, 100)
  }

  ghost predicate Leads(c: Core, e: Event, after: Core) {
    Sound(c) && Enabled(c, e) && Next(c, e, {}, 100) == after && Sound(after)
  }

  ghost predicate EndsIn(c: Core, run: seq<Occurrence>, last: Core) {
    Sound(c) && Occurs(c, run) && After(c, run) == last
  }

  lemma {:induction false} ARunBegins(c: Core, e: Event, after: Core, rest: seq<Occurrence>, last: Core)
    requires Leads(c, e, after) && EndsIn(after, rest, last)
    ensures EndsIn(c, [At(e)] + rest, last)
  {
    assert ([At(e)] + rest)[1..] == rest;
  }

  const FAILURE := Block(10, Error(false, false), None, 0)

  /** A root whose Resume runs, with `transcript` so far. */
  function Resuming(taken: bool, began: bool, concluded: bool, transcript: seq<Block>): Core {
    Core(Queue([], 0), [], Running(Run(Resumption, 1, None, taken, began, false, false, concluded)), false, false, false,
         transcript, None, true)
  }

  /** A root without an action. */
  function Root(inputs: Queue, activity: Activity, transcript: seq<Block>): Core {
    Core(inputs, [], activity, false, false, false, transcript, None, true)
  }

  const EMPTY := Queue([], 0)

  lemma {:induction false} TheFailureHolds()
    ensures TurnFailure([FAILURE]) == Some(FAILURE) && LastTurn([FAILURE]) == None
  {
    assert [FAILURE][..0] == [];
  }

  lemma {:induction false} TheResumeStarts()
    ensures Leads(Root(EMPTY, Idle, []), AsksForAction(Resumption, 1), Resuming(false, false, false, []))
  {
  }

  lemma {:induction false} TheWorkerTakesIt()
    ensures Leads(Resuming(false, false, false, []), TakesAction, Resuming(true, false, false, []))
  {
  }

  lemma {:induction false} ItRewritesTheEmptyHistory()
    ensures Leads(Resuming(true, false, false, []), Rewrites([]), Resuming(true, true, false, []))
  {
  }

  lemma {:induction false} TheFailureIsRecorded()
    ensures Leads(Resuming(true, true, false, []), Writes(FAILURE), Resuming(true, true, false, [FAILURE]))
  {
    assert [] + [FAILURE] == [FAILURE];
  }

  lemma {:induction false} TheResumeFails()
    ensures Leads(Resuming(true, true, false, [FAILURE]), Fails, Resuming(true, true, true, [FAILURE]))
  {
  }

  lemma {:induction false} TheResumeEnds()
    ensures Leads(Resuming(true, true, true, [FAILURE]), EndsAction, Root(EMPTY, Finishing, [FAILURE]))
  {
  }

  lemma {:induction false} TheSessionIsIdle()
    ensures Leads(Root(EMPTY, Finishing, [FAILURE]), StartsNext, Root(EMPTY, Idle, [FAILURE]))
  {
    TheFailureHolds();
  }

  lemma {:induction false} AMessageComes()
    ensures Leads(Root(EMPTY, Idle, [FAILURE]), SendsAgentMessage(20, 5, false),
                  Root(Added(EMPTY, Agent(20, 5)), Idle, [FAILURE]))
  {
    TheFailureHolds();
    EveryStepIsSound(Root(EMPTY, Idle, [FAILURE]), SendsAgentMessage(20, 5, false), {}, 100);
  }

  /** What follows the failure, and the message it does not take. */
  function Failing(): seq<Occurrence> {
    [At(Fails)] + ([At(EndsAction)] + ([At(StartsNext)] + ([At(SendsAgentMessage(20, 5, false))] + [])))
  }

  lemma {:induction false} TheMessageWaits(last: Core)
    requires last == Root(Added(EMPTY, Agent(20, 5)), Idle, [FAILURE])
    ensures EndsIn(Resuming(true, true, false, [FAILURE]), Failing(), last)
  {
    TheResumeFails();
    TheResumeEnds();
    TheSessionIsIdle();
    AMessageComes();
    var message := SendsAgentMessage(20, 5, false);
    ARunBegins(Root(EMPTY, Idle, [FAILURE]), message, last, [], last);
    ARunBegins(Root(EMPTY, Finishing, [FAILURE]), StartsNext, Root(EMPTY, Idle, [FAILURE]), [At(message)] + [], last);
    ARunBegins(Resuming(true, true, true, [FAILURE]), EndsAction, Root(EMPTY, Finishing, [FAILURE]),
               [At(StartsNext)] + ([At(message)] + []), last);
    ARunBegins(Resuming(true, true, false, [FAILURE]), Fails, Resuming(true, true, true, [FAILURE]),
               [At(EndsAction)] + ([At(StartsNext)] + ([At(message)] + [])), last);
  }

  lemma {:induction false} FromTheFailure(last: Core) returns (run: seq<Occurrence>)
    requires last == Root(Added(EMPTY, Agent(20, 5)), Idle, [FAILURE])
    ensures EndsIn(Resuming(true, true, false, []), run, last)
  {
    TheMessageWaits(last);
    TheFailureIsRecorded();
    ARunBegins(Resuming(true, true, false, []), Writes(FAILURE), Resuming(true, true, false, [FAILURE]), Failing(), last);
    run := [At(Writes(FAILURE))] + Failing();
  }

  lemma {:induction false} FromTheRewrite(last: Core) returns (run: seq<Occurrence>)
    requires last == Root(Added(EMPTY, Agent(20, 5)), Idle, [FAILURE])
    ensures EndsIn(Resuming(true, false, false, []), run, last)
  {
    var rest := FromTheFailure(last);
    ItRewritesTheEmptyHistory();
    ARunBegins(Resuming(true, false, false, []), Rewrites([]), Resuming(true, true, false, []), rest, last);
    run := [At(Rewrites([]))] + rest;
  }

  lemma {:induction false} FromTheStart(last: Core) returns (run: seq<Occurrence>)
    requires last == Root(Added(EMPTY, Agent(20, 5)), Idle, [FAILURE])
    ensures EndsIn(Resuming(false, false, false, []), run, last)
  {
    var rest := FromTheRewrite(last);
    TheWorkerTakesIt();
    ARunBegins(Resuming(false, false, false, []), TakesAction, Resuming(true, false, false, []), rest, last);
    run := [At(TakesAction)] + rest;
  }

  lemma {:induction false} TheMessageIsLeft(last: Core)
    requires last == Root(Added(EMPTY, Agent(20, 5)), Idle, [FAILURE])
    ensures !NoInputWaits(last) && last.inputs.entries == [Agent(20, 5)] && last.pending == []
  {
    TheFailureHolds();
  }

  /** A run from a new session that leaves an agent's message waiting where nothing will write it: a
      Resume of an empty history that fails once it rewrote it, before its `resume` block. */
  lemma {:induction false} AnInputMayWait() returns (run: seq<Occurrence>, last: Core)
    ensures EndsIn(Root(EMPTY, Idle, []), run, last)
    ensures !NoInputWaits(last) && last.inputs.entries == [Agent(20, 5)] && last.pending == []
  {
    last := Root(Added(EMPTY, Agent(20, 5)), Idle, [FAILURE]);
    TheMessageIsLeft(last);
    var rest := FromTheStart(last);
    TheResumeStarts();
    ARunBegins(Root(EMPTY, Idle, []), AsksForAction(Resumption, 1), Resuming(false, false, false, []), rest, last);
    run := [At(AsksForAction(Resumption, 1))] + rest;
  }
}
