/** Where each accepted message and steer is, over every run of a session. */
module MessageRuns {
  import opened Wrappers
  import opened Blocks
  import opened Inputs
  import opened SessionCores
  import opened Conservation
  import opened SessionRuns

  /** Whether the event is a message or a steer that the session accepts. */
  predicate Accepts(c: Core, e: Event) {
    match e
    case SendsMessage(id, _, _) => !Refuses(c) && !KnowsTurn(c, id)
    case Steers(id, _) => !KnowsSteer(c, id) && !c.disposing && !c.activity.Closed?
    case _ => false
  }

  /** How many more of the blocks of `a` fit than of those of `b`. */
  function More(a: seq<Block>, b: seq<Block>, p: Pattern): nat {
    if BlockTimes(a, p) > BlockTimes(b, p) then BlockTimes(a, p) - BlockTimes(b, p) else 0
  }

  /** What comes: an accepted message or steer, or what a rewrite brings, as an edit's new version. */
  function AcceptedTimes(c: Core, e: Event, p: Pattern): nat {
    match e
    case Rewrites(blocks) => More(blocks, c.transcript, p)
    case AcceptsEdit(blocks) => More(blocks, c.transcript, p)
    case SendsMessage(id, content, _) => One(Accepts(c, e) && Fits(p, id, content))
    case Steers(id, content) => One(Accepts(c, e) && Fits(p, id, content))
    case _ => 0
  }

  /** What leaves: a steer recalled, a message dequeued, cleared or aborted, what a give-back cuts, or
      what a rewrite leaves out. */
  function LeavingTimes(c: Core, e: Event, p: Pattern): nat {
    match e
    case CancelsSteer(id) =>
      var at := SteerAt(c.inputs.entries, Some(id));
      if at < |c.inputs.entries| then One(SteerFits(c.inputs.entries[at], p)) else 0
    case Dequeues(id) =>
      var at := QueuedAt(c.pending, Some(id));
      if !c.disposing && at < |c.pending| then One(SendFits(c.pending[at], p)) else 0
    case ClearsQueue => if c.disposing then 0 else SendTimes(c.pending, p)
    case Aborts(_, _) =>
      if c.disposing || (c.activity.Running? && c.activity.run.cancel.None?) || c.pending == [] then 0
      else One(SendFits(c.pending[0], p))
    case RecordsStop =>
      if c.activity.Running? && c.activity.run.cancel == Some(Stop) && c.activity.run.givingBack
      then GivenBackTimes(c, p) else 0
    case Rewrites(blocks) => More(c.transcript, blocks, p)
    case AcceptsEdit(blocks) => More(c.transcript, blocks, p)
    case _ => 0
  }

  /** A step adds what it accepts, takes what leaves, and keeps every other message. */
  ghost predicate Conserves(c: Core, e: Event, after: Core, p: Pattern) {
    Places(after, p) + LeavingTimes(c, e, p) == Places(c, p) + AcceptedTimes(c, e, p)
  }

  lemma {:induction false} AnAdmissionConserves(c: Core, e: Event, seen: set<nat>, next: nat, p: Pattern)
    requires Sound(c) && Enabled(c, e)
    requires e.SendsMessage? || e.AsksForAction? || e.AsksForEdit? || e.CompactsIdle?
    ensures Conserves(c, e, Next(c, e, seen, next), p)
  {
    match e
    case SendsMessage(id, content, scheduled) => PushingAddsItsMessage(c, Send(content, scheduled), id, seen, next, p);
    case AsksForAction(kind, turn) => PushingAddsItsMessage(c, kind, turn, seen, next, p);
    case AsksForEdit(turn) => PushingAddsItsMessage(c.(preparing := true), Edit, turn, seen, next, p);
    case CompactsIdle(turn) => PushingAddsItsMessage(c, Compact(true), turn, seen, next, p);
  }

  lemma {:induction false} AddingAnInputAddsItsPlace(c: Core, input: Input, p: Pattern)
    ensures Places(c.(inputs := Added(c.inputs, input)), p) == Places(c, p) + One(SteerFits(input, p))
  {
    AddingAnInput(c.inputs, input, p);
  }

  lemma {:induction false} ASteerConserves(c: Core, id: MessageId, content: nat, seen: set<nat>, next: nat, p: Pattern)
    ensures Conserves(c, Steers(id, content), Steered(c, id, content, seen, next), p)
  {
    if Accepts(c, Steers(id, content)) {
      if c.activity.Idle? {
        PushingAddsItsMessage(c, Send(content, false), id, seen, next, p);
      } else {
        AddingAnInputAddsItsPlace(c, Input.Steer(id, content), p);
      }
    }
  }

  lemma {:induction false} AContinuationTakesNoMessage(c: Core, next: nat, p: Pattern)
    requires !c.activity.Running?
    ensures Places(Started(c, Continue, next), p) == Places(c, p)
  {
  }

  lemma {:induction false} AnAgentMessageConserves(
      c: Core, id: MessageId, content: nat, fromProduct: bool, seen: set<nat>, next: nat,
                                p: Pattern)
    ensures Places(AgentMessageAdmitted(c, id, content, fromProduct, seen, next), p) == Places(c, p)
  {
    var added := c.(inputs := Added(c.inputs, Agent(id, content)));
    WakingKeepsMessages(c, seen, next, p);
    AddingAnInputAddsItsPlace(c, Agent(id, content), p);
    WakingKeepsMessages(added, seen, next, p);
    if added.activity.Idle? { AContinuationTakesNoMessage(added, next, p); }
  }

  lemma {:induction false} AReportConserves(c: Core, report: Input, seen: set<nat>, next: nat, p: Pattern)
    requires report.Report?
    ensures Places(ReportAdmitted(c, report, seen, next), p) == Places(c, p)
  {
    AddingAnInputAddsItsPlace(c, report, p);
    WakingKeepsMessages(c.(inputs := Added(c.inputs, report)), seen, next, p);
  }

  lemma {:induction false} WakingEventsConserve(c: Core, failure: BlockId, seen: set<nat>, next: nat, p: Pattern)
    ensures Places(ReleasedHold(c, seen, next), p) == Places(c, p)
    ensures Places(FailurePassed(c, failure, seen, next), p) == Places(c, p)
  {
    WakingKeepsMessages(c.(held := false), seen, next, p);
    WakingKeepsMessages(c.(passedFailure := Some(failure)), seen, next, p);
  }

  lemma {:induction false} RecallingConserves(c: Core, id: MessageId, p: Pattern)
    ensures Conserves(c, CancelsSteer(id), c.(inputs := WithoutSteer(c.inputs, id)), p)
  {
    var at := SteerAt(c.inputs.entries, Some(id));
    if at < |c.inputs.entries| { SteersWithoutOne(c.inputs.entries, at, p); }
  }

  lemma {:induction false} DequeuingConserves(c: Core, id: MessageId, p: Pattern)
    ensures Conserves(c, Dequeues(id), Dequeued(c, id), p)
  {
    var at := QueuedAt(c.pending, Some(id));
    if at < |c.pending| { SendsWithoutOne(c.pending, at, p); }
  }

  lemma {:induction false} ClearingTakesTheMessages(c: Core, p: Pattern)
    ensures Places(QueueCleared(c), p) + (if c.disposing then 0 else SendTimes(c.pending, p)) == Places(c, p)
  {
    OnlySendsAreMessages(c.pending, p);
  }

  lemma {:induction false} ClearingConserves(c: Core, p: Pattern)
    ensures Conserves(c, ClearsQueue, QueueCleared(c), p)
  {
    ClearingTakesTheMessages(c, p);
  }

  lemma {:induction false} CancellingConserves(c: Core, reason: Reason, p: Pattern)
    ensures Places(Cancelled(c, reason), p) == Places(c, p)
  {
  }

  lemma {:induction false} StoppingTheRunConserves(c: Core, givingBack: bool, p: Pattern)
    requires c.activity.Running?
    ensures Places(c.(activity := Running(c.activity.run.(cancel := Some(Stop), givingBack := givingBack))), p)
            == Places(c, p)
  {
  }

  lemma {:induction false} AbortingConserves(c: Core, writing: bool, ofSchedule: bool, p: Pattern)
    ensures Conserves(c, Aborts(writing, ofSchedule), Aborted(c, writing, ofSchedule), p)
  {
    if c.activity.Running? && c.activity.run.cancel.None? {
      StoppingTheRunConserves(c, WouldGiveBack(c, writing, ofSchedule), p);
    } else if c.pending != [] {
      SendsFromTheSecond(c.pending, p);
    }
  }

  lemma {:induction false} AnActionMovesAhead(pending: seq<Pending>, at: nat, front: nat, p: Pattern)
    requires at < |pending| && front < |pending|
    ensures var rest := pending[..at] + pending[at + 1..];
            SendTimes(rest[..front] + [pending[at]] + rest[front..], p) == SendTimes(pending, p)
  {
    var rest := pending[..at] + pending[at + 1..];
    SendsWithoutOne(pending, at, p);
    SendsWithOne(rest[..front], pending[at], rest[front..], p);
    assert rest[..front] + rest[front..] == rest;
  }

  lemma {:induction false} MovingAheadConserves(c: Core, id: MessageId, p: Pattern)
    ensures Places(SentNext(c, id), p) == Places(c, p)
  {
    var at := QueuedAt(c.pending, Some(id));
    if !c.disposing && at < |c.pending| {
      var rest := c.pending[..at] + c.pending[at + 1..];
      AnActionMovesAhead(c.pending, at, QueuedAt(rest, None), p);
    }
  }

  lemma {:induction false} DisposingConserves(c: Core, p: Pattern)
    ensures Places(DisposeBegun(c), p) == Places(c, p)
  {
    OnlySendsAreMessages(c.pending, p);
    var disposing := c.(disposing := true, pending := Sends(c.pending));
    assert Places(disposing, p) == Places(c, p);
    CancellingConserves(disposing, Shutdown, p);
  }

  lemma {:induction false} HoldsAndStopsConserve(c: Core, e: Event, seen: set<nat>, next: nat, p: Pattern)
    requires Sound(c) && Enabled(c, e)
    requires e.SendsNext? || e.HoldsInput? || e.ReleasesInput? || e.StopsForHold? || e.StopsForEdit? || e.PassesFailure?
             || e.Disposes?
    ensures Conserves(c, e, Next(c, e, seen, next), p)
  {
    match e
    case SendsNext(id) => MovingAheadConserves(c, id, p);
    case HoldsInput =>
    case ReleasesInput => WakingEventsConserve(c, 0, seen, next, p);
    case StopsForHold => CancellingConserves(c, Hold, p);
    case StopsForEdit(_) => CancellingConserves(c, Stop, p);
    case PassesFailure(failure) => WakingEventsConserve(c, failure, seen, next, p);
    case Disposes => DisposingConserves(c, p);
  }

  lemma {:induction false} ArrivalsConserve(c: Core, e: Event, seen: set<nat>, next: nat, p: Pattern)
    requires Sound(c) && Enabled(c, e) && (e.Steers? || e.SendsAgentMessage? || e.Reports?)
    ensures Conserves(c, e, Next(c, e, seen, next), p)
  {
    match e
    case Steers(id, content) => ASteerConserves(c, id, content, seen, next, p);
    case SendsAgentMessage(id, content, fromProduct) =>
      AnAgentMessageConserves(c, id, content, fromProduct, seen, next, p);
    case Reports(report) => AReportConserves(c, report, seen, next, p);
  }

  lemma {:induction false} WithdrawalsConserve(c: Core, e: Event, seen: set<nat>, next: nat, p: Pattern)
    requires Sound(c) && Enabled(c, e) && (e.CancelsSteer? || e.Dequeues? || e.ClearsQueue? || e.Aborts?)
    ensures Conserves(c, e, Next(c, e, seen, next), p)
  {
    match e
    case CancelsSteer(id) => RecallingConserves(c, id, p);
    case Dequeues(id) => DequeuingConserves(c, id, p);
    case ClearsQueue => ClearingConserves(c, p);
    case Aborts(writing, ofSchedule) => AbortingConserves(c, writing, ofSchedule, p);
  }

  predicate Admits(e: Event) {
    e.SendsMessage? || e.AsksForAction? || e.AsksForEdit? || e.CompactsIdle?
  }

  predicate Arrives(e: Event) {
    e.Steers? || e.SendsAgentMessage? || e.Reports?
  }

  predicate Withdraws(e: Event) {
    e.CancelsSteer? || e.Dequeues? || e.ClearsQueue? || e.Aborts?
  }

  lemma {:induction false} StepsFromOutsideConserve(c: Core, e: Event, seen: set<nat>, next: nat, p: Pattern)
    requires Sound(c) && Enabled(c, e) && IsFromOutside(e)
    ensures Conserves(c, e, Next(c, e, seen, next), p)
  {
    if Admits(e) {
      AnAdmissionConserves(c, e, seen, next, p);
    } else if Arrives(e) {
      ArrivalsConserve(c, e, seen, next, p);
    } else if Withdraws(e) {
      WithdrawalsConserve(c, e, seen, next, p);
    } else {
      HoldsAndStopsConserve(c, e, seen, next, p);
    }
  }

  // The worker's steps.

  lemma {:induction false} TakingReportsKeepsMessages(c: Core, seen: set<nat>, p: Pattern)
    ensures var unseen := c.(inputs := WithoutSeen(c.inputs, seen));
            && Places(unseen, p) == Places(c, p)
            && Places(unseen.(inputs := Happened(unseen.inputs, TakesReports)), p) == Places(c, p)
  {
    SeenReportsAreNoSteers(c.inputs.entries, seen, p);
    ReportsAreNoSteers(Unseen(c.inputs.entries, seen), p);
  }

  lemma {:induction false} OpeningAContinuationConserves(c: Core, seen: set<nat>, next: nat, p: Pattern)
    requires c.activity.Running?
    ensures Places(ContinuationOpened(c, seen, next), p) == Places(c, p)
  {
    var unseen := c.(inputs := WithoutSeen(c.inputs, seen));
    TakingReportsKeepsMessages(c, seen, p);
    var block := Block(next, Wakeup(c.activity.run.turn, true, Events(Inputs.Reports(unseen.inputs.entries))), None, 0);
    WritingOneBlock(unseen.(inputs := Happened(unseen.inputs, TakesReports)), block, p);
    WritingInputsKeepsMessages(c, c.activity.run.turn, Everything, seen, next, p);
  }

  lemma {:induction false} InsertingConserves(c: Core, at: nat, block: Block, p: Pattern)
    requires at <= |c.transcript| && IsOutput(block)
    ensures Places(Wrote(c, c.transcript[..at] + [block] + c.transcript[at..]), p) == Places(c, p)
  {
    var (before, after) := (c.transcript[..at], c.transcript[at..]);
    assert before + after == c.transcript;
    BlocksInBoth(before, after, p);
    BlocksInBoth(before + [block], after, p);
    BlocksWithOneMore(before, block, p);
    WritingBlocks(c, before + [block] + after, p);
  }

  lemma {:induction false} CompletingACallConserves(c: Core, at: nat, p: Pattern)
    requires at < |c.transcript|
    ensures Places(Wrote(c, c.transcript[at := Settled(c.transcript[at])]), p) == Places(c, p)
  {
    var (before, block, after) := (c.transcript[..at], c.transcript[at], c.transcript[at + 1..]);
    var settled := c.transcript[at := Settled(block)];
    assert c.transcript == before + [block] + after && settled == before + [Settled(block)] + after;
    BlocksInBoth(before + [block], after, p);
    BlocksInBoth(before + [Settled(block)], after, p);
    BlocksWithOneMore(before, block, p);
    BlocksWithOneMore(before, Settled(block), p);
    WritingBlocks(c, settled, p);
  }

  lemma {:induction false} ConcludingConserves(c: Core, p: Pattern)
    ensures Places(Concluded(c), p) == Places(c, p)
  {
  }

  lemma {:induction false} RecordingAStopConserves(c: Core, seen: set<nat>, next: nat, p: Pattern)
    requires Sound(c) && Enabled(c, RecordsStop)
    ensures Conserves(c, RecordsStop, Next(c, RecordsStop, seen, next), p)
  {
    var reason := c.activity.run.cancel.value;
    RecordingAStopKeepsMessages(c, reason, seen, next, p);
    ConcludingConserves(StopRecorded(c, reason, seen, next), p);
  }

  lemma {:induction false} FailingConserves(c: Core, seen: set<nat>, next: nat, p: Pattern)
    requires c.activity.Running?
    ensures Places(Failed(c, seen, next), p) == Places(c, p)
  {
    WritingInputsKeepsMessages(c, c.activity.run.turn, AllButSteers, seen, next, p);
    AbortingCallsKeepsMessages(InputsWritten(c, c.activity.run.turn, AllButSteers, seen, next), p);
  }

  /** A shutdown keeps every message: one that was not written goes back to the front of the queue. */
  lemma {:induction false} ShuttingDownConserves(c: Core, seen: set<nat>, next: nat, p: Pattern)
    requires Sound(c) && Works(c) && c.activity.run.cancel == Some(Shutdown)
    ensures Places(ShutDown(c, seen, next), p) == Places(c, p)
  {
    var run := c.activity.run;
    var rejected := c.(preparing := false);
    if run.began {
      RecordingAStopKeepsMessages(rejected, Shutdown, seen, next, p);
      ARecordedStopEndsEachCall(rejected, Shutdown, seen, next);
      var stopped := StopRecorded(rejected, Shutdown, seen, next);
      QueuingSteersKeepsMessages(stopped, 0, p);
    } else if run.kind.Send? {
      SendsInBoth([Pending(run.kind, run.turn)], c.pending, p);
      OneAction(Pending(run.kind, run.turn), p);
      QueuingSteersKeepsMessages(rejected.(pending := [Pending(run.kind, run.turn)] + c.pending), 1, p);
    } else {
      QueuingSteersKeepsMessages(rejected, 0, p);
    }
  }

  lemma {:induction false} StepsOfTheWorkerConserve(c: Core, e: Event, seen: set<nat>, next: nat, p: Pattern)
    requires Sound(c) && Enabled(c, e) && !IsFromOutside(e)
    ensures Conserves(c, e, Next(c, e, seen, next), p)
  {
    match e
    case WritesMessage => WritingTheMessageKeepsIt(c, next, p);
    case OpensContinuation => OpeningAContinuationConserves(c, seen, next, p);
    case WritesInputs(take) => WritingInputsKeepsMessages(c, c.activity.run.turn, take, seen, next, p);
    case Writes(block) => WritingOneBlock(c, block, p);
    case Inserts(at, block) => InsertingConserves(c, at, block, p);
    case CompletesCall(at) => CompletingACallConserves(c, at, p);
    case Rewrites(blocks) => WritingBlocks(c, blocks, p);
    case AcceptsEdit(blocks) => WritingBlocks(c.(preparing := false), blocks, p);
    case RecordsStop => RecordingAStopConserves(c, seen, next, p);
    case Fails => FailingConserves(c, seen, next, p);
    case ShutsDown => ShuttingDownConserves(c, seen, next, p);
    case StartsNext => StartingNextKeepsMessages(c, seen, next, p);
    case _ =>
  }

  /** Every step keeps each message where it is or moves it, but for those it accepts and those that
      leave. */
  lemma {:induction false} EveryStepConserves(c: Core, e: Event, seen: set<nat>, next: nat, p: Pattern)
    requires Sound(c) && Enabled(c, e)
    ensures Conserves(c, e, Next(c, e, seen, next), p)
  {
    if IsFromOutside(e) {
      StepsFromOutsideConserve(c, e, seen, next, p);
    } else {
      StepsOfTheWorkerConserve(c, e, seen, next, p);
    }
  }

  // No message is in two places.

  lemma {:induction false} NoSteerOf(entries: seq<Input>, id: MessageId)
    requires SteerAt(entries, Some(id)) == |entries|
    ensures SteerTimes(entries, Pattern(id, None)) == 0
  {
    if entries != [] {
      var before := entries[..|entries| - 1];
      assert SteerAt(before, Some(id)) == |before|;
      NoSteerOf(before, id);
    }
  }

  lemma {:induction false} NoSendOf(pending: seq<Pending>, id: TurnId)
    requires forall k :: 0 <= k < |pending| ==> !(pending[k].kind.Send? && pending[k].turn == id)
    ensures SendTimes(pending, Pattern(id, None)) == 0
  {
    if pending != [] {
      NoSendOf(pending[..|pending| - 1], id);
    }
  }

  lemma {:induction false} NoBlockOf(blocks: seq<Block>, id: MessageId)
    requires !HasUserTurn(blocks, id) && !HoldsBlock(blocks, id)
    ensures BlockTimes(blocks, Pattern(id, None)) == 0
  {
    if blocks != [] {
      assert blocks[|blocks| - 1].body != User(id) && blocks[|blocks| - 1].id != id;
      assert forall k :: 0 <= k < |blocks| - 1 ==> blocks[..|blocks| - 1][k] == blocks[k];
      NoBlockOf(blocks[..|blocks| - 1], id);
    }
  }

  /** A steer is accepted only when the session holds it nowhere. */
  lemma {:induction false} AnUnknownSteerIsNowhere(c: Core, id: MessageId)
    requires !KnowsSteer(c, id)
    ensures Places(c, Pattern(id, None)) == 0
  {
    NoSteerOf(c.inputs.entries, id);
    NoSendOf(c.pending, id);
    NoBlockOf(c.transcript, id);
  }

  lemma {:induction false} ASteerWaitsExactlyWhen(entries: seq<Input>, id: MessageId)
    ensures SteerTimes(entries, Pattern(id, None)) > 0 <==> SteerAt(entries, Some(id)) < |entries|
  {
    if entries == [] {
    } else {
      var before := entries[..|entries| - 1];
      ASteerWaitsExactlyWhen(before, id);
      assert forall k :: 0 <= k < |before| ==> before[k] == entries[k];
    }
  }

  predicate HoldsSteer(blocks: seq<Block>, id: MessageId) {
    exists k :: 0 <= k < |blocks| && blocks[k].body.Steer? && blocks[k].id == id
  }

  lemma {:induction false} AMessageIsWrittenExactlyWhen(blocks: seq<Block>, id: MessageId)
    ensures BlockTimes(blocks, Pattern(id, None)) > 0 <==> HasUserTurn(blocks, id) || HoldsSteer(blocks, id)
  {
    if blocks != [] {
      var (before, last) := (blocks[..|blocks| - 1], blocks[|blocks| - 1]);
      AMessageIsWrittenExactlyWhen(before, id);
      assert HasUserTurn(blocks, id) <==> HasUserTurn(before, id) || last.body == User(id) by {
        assert forall k :: 0 <= k < |before| ==> before[k] == blocks[k];
      }
      assert HoldsSteer(blocks, id) <==> HoldsSteer(before, id) || (last.body.Steer? && last.id == id) by {
        assert forall k :: 0 <= k < |before| ==> before[k] == blocks[k];
      }
    }
  }

  /** A message is sent under the id of a steer that waits or was written. */
  predicate SendsUnderASteersId(c: Core, e: Event) {
    && e.SendsMessage? && Accepts(c, e)
    && (SteerAt(c.inputs.entries, Some(e.id)) < |c.inputs.entries| || HoldsSteer(c.transcript, e.id))
  }

  lemma {:induction false} AnAcceptedMessageIsHeldExactlyWhen(c: Core, e: Event)
    requires e.SendsMessage? && Accepts(c, e)
    ensures Places(c, Pattern(e.id, None)) > 0 <==> SendsUnderASteersId(c, e)
  {
    ASteerWaitsExactlyWhen(c.inputs.entries, e.id);
    AMessageIsWrittenExactlyWhen(c.transcript, e.id);
    NoSendOf(c.pending, e.id);
  }

  /** A rewrite brings a message twice, or one that waits to be written. */
  ghost predicate BringsAMessageTwice(c: Core, e: Event) {
    && (e.Rewrites? || e.AcceptsEdit?)
    && exists id: MessageId ::
         BlockTimes(e.blocks, Pattern(id, None)) + (Places(c, Pattern(id, None)) - BlockTimes(c.transcript, Pattern(id, None))) > 1
  }

  lemma {:induction false} ASentMessageKeepsOnePlaceExactlyWhen(c: Core, e: Event, seen: set<nat>, next: nat)
    requires Sound(c) && InOnePlace(c) && Enabled(c, e) && e.SendsMessage?
    ensures InOnePlace(Next(c, e, seen, next)) <==> !SendsUnderASteersId(c, e)
  {
    var after := Next(c, e, seen, next);
    var sent := Pattern(e.id, None);
    EveryStepConserves(c, e, seen, next, sent);
    if Accepts(c, e) {
      AnAcceptedMessageIsHeldExactlyWhen(c, e);
      assert Places(after, sent) == Places(c, sent) + 1;
    }
    forall id: MessageId | id != e.id ensures Places(after, Pattern(id, None)) <= 1 {
      EveryStepConserves(c, e, seen, next, Pattern(id, None));
      assert Places(c, Pattern(id, None)) <= 1;
    }
    assert Places(c, sent) <= 1;
  }

  lemma {:induction false} ARewriteKeepsOnePlaceExactlyWhen(c: Core, e: Event, seen: set<nat>, next: nat)
    requires Sound(c) && Enabled(c, e) && (e.Rewrites? || e.AcceptsEdit?)
    ensures InOnePlace(Next(c, e, seen, next)) <==> !BringsAMessageTwice(c, e)
  {
    var after := Next(c, e, seen, next);
    forall id: MessageId
      ensures Places(after, Pattern(id, None))
              == BlockTimes(e.blocks, Pattern(id, None))
                 + (Places(c, Pattern(id, None)) - BlockTimes(c.transcript, Pattern(id, None)))
    {
      EveryStepConserves(c, e, seen, next, Pattern(id, None));
    }
  }

  lemma {:induction false} AnyOtherStepKeepsOnePlace(c: Core, e: Event, seen: set<nat>, next: nat)
    requires Sound(c) && InOnePlace(c) && Enabled(c, e) && !e.SendsMessage? && !e.Rewrites? && !e.AcceptsEdit?
    ensures InOnePlace(Next(c, e, seen, next))
  {
    forall id: MessageId ensures Places(Next(c, e, seen, next), Pattern(id, None)) <= 1 {
      EveryStepConserves(c, e, seen, next, Pattern(id, None));
      assert Places(c, Pattern(id, None)) <= 1;
      if e.Steers? && e.id == id && Accepts(c, e) { AnUnknownSteerIsNowhere(c, id); }
    }
  }

  /** A step keeps every message in one place unless, and only if, it sends a message under a steer's id
      or rewrites the history with a message held elsewhere. */
  lemma {:induction false} AStepKeepsOnePlaceExactlyWhen(c: Core, e: Event, seen: set<nat>, next: nat)
    requires Sound(c) && InOnePlace(c) && Enabled(c, e)
    ensures InOnePlace(Next(c, e, seen, next)) <==> !SendsUnderASteersId(c, e) && !BringsAMessageTwice(c, e)
  {
    if e.SendsMessage? {
      ASentMessageKeepsOnePlaceExactlyWhen(c, e, seen, next);
    } else if e.Rewrites? || e.AcceptsEdit? {
      ARewriteKeepsOnePlaceExactlyWhen(c, e, seen, next);
    } else {
      AnyOtherStepKeepsOnePlace(c, e, seen, next);
    }
  }

  // Runs.

  datatype Occurrence = Occurrence(event: Event, seen: set<nat>, next: nat)

  lemma {:induction false} EveryStepIsSound(c: Core, e: Event, seen: set<nat>, next: nat)
    requires Sound(c) && Enabled(c, e)
    ensures Sound(Next(c, e, seen, next))
  {
    if IsFromOutside(e) { AStepFromOutsideIsSound(c, e, seen, next); } else { AStepOfTheWorkerIsSound(c, e, seen, next); }
  }

  ghost predicate Occurs(c: Core, run: seq<Occurrence>)
    requires Sound(c)
    decreases |run|
  {
    run == []
    || (Enabled(c, run[0].event)
        && (EveryStepIsSound(c, run[0].event, run[0].seen, run[0].next);
            Occurs(Next(c, run[0].event, run[0].seen, run[0].next), run[1..])))
  }

  function After(c: Core, run: seq<Occurrence>): Core
    requires Sound(c) && Occurs(c, run)
    decreases |run|
  {
    if run == [] then c
    else
      EveryStepIsSound(c, run[0].event, run[0].seen, run[0].next);
      After(Next(c, run[0].event, run[0].seen, run[0].next), run[1..])
  }

  function AllAccepted(c: Core, run: seq<Occurrence>, p: Pattern): nat
    requires Sound(c) && Occurs(c, run)
    decreases |run|
  {
    if run == [] then 0
    else
      EveryStepIsSound(c, run[0].event, run[0].seen, run[0].next);
      AcceptedTimes(c, run[0].event, p)
      + AllAccepted(Next(c, run[0].event, run[0].seen, run[0].next), run[1..], p)
  }

  function AllLeft(c: Core, run: seq<Occurrence>, p: Pattern): nat
    requires Sound(c) && Occurs(c, run)
    decreases |run|
  {
    if run == [] then 0
    else
      EveryStepIsSound(c, run[0].event, run[0].seen, run[0].next);
      LeavingTimes(c, run[0].event, p)
      + AllLeft(Next(c, run[0].event, run[0].seen, run[0].next), run[1..], p)
  }

  /** Over every run a message or steer is in as many places as it came less how often it left; an idle
      session has nothing to do; a call executes only while its action runs; and a closed session has no
      steer left among its inputs. */
  lemma {:induction false} EveryRunConservesMessages(c: Core, run: seq<Occurrence>, p: Pattern)
    requires Sound(c) && Occurs(c, run)
    ensures var after := After(c, run);
            && Sound(after)
            && Places(after, p) + AllLeft(c, run, p) == Places(c, p) + AllAccepted(c, run, p)
    decreases |run|
  {
    if run != [] {
      var (e, seen, next) := (run[0].event, run[0].seen, run[0].next);
      EveryStepIsSound(c, e, seen, next);
      EveryStepConserves(c, e, seen, next, p);
      EveryRunConservesMessages(Next(c, e, seen, next), run[1..], p);
    }
  }

  /** No event of the run holds a message twice. */
  ghost predicate SharesNoId(c: Core, run: seq<Occurrence>)
    requires Sound(c) && Occurs(c, run)
    decreases |run|
  {
    run == []
    || (!SendsUnderASteersId(c, run[0].event) && !BringsAMessageTwice(c, run[0].event)
        && (EveryStepIsSound(c, run[0].event, run[0].seen, run[0].next);
            SharesNoId(Next(c, run[0].event, run[0].seen, run[0].next), run[1..])))
  }

  /** Over every run whose messages have ids of their own, none is ever in two places. */
  lemma {:induction false} EveryRunKeepsOnePlace(c: Core, run: seq<Occurrence>)
    requires Sound(c) && InOnePlace(c) && Occurs(c, run) && SharesNoId(c, run)
    ensures InOnePlace(After(c, run))
    decreases |run|
  {
    if run != [] {
      var (e, seen, next) := (run[0].event, run[0].seen, run[0].next);
      EveryStepIsSound(c, e, seen, next);
      AStepKeepsOnePlaceExactlyWhen(c, e, seen, next);
      EveryRunKeepsOnePlace(Next(c, e, seen, next), run[1..]);
    }
  }

  /** A new session is where a run begins. */
  lemma {:induction false} ANewSessionIsSound(recovers: bool)
    ensures var c := Core(Queue([], 0), [], Idle, false, false, false, [], None, recovers);
            Sound(c) && InOnePlace(c)
  {
  }
}
