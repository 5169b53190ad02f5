/**
 Every run of a session (crates/agent-session/src/core.rs, worker.rs): whatever is admitted, withdrawn,
 stopped or disposed comes between the steps of the worker, which runs one action at a time.
 */
module SessionRuns {
  import opened Wrappers
  import opened Blocks
  import opened Inputs
  import opened SessionCores
  import opened Conservation

  datatype Event =
    | SendsMessage(id: MessageId, content: nat, scheduled: bool)
    | AsksForAction(kind: ActionKind, turn: TurnId)
    | AsksForEdit(turn: TurnId)
    | CompactsIdle(turn: TurnId)
    | Steers(id: MessageId, content: nat)
    | SendsAgentMessage(id: MessageId, content: nat, fromProduct: bool)
    | Reports(report: Input)
    | CancelsSteer(id: MessageId)
    | Dequeues(id: MessageId)
    | SendsNext(id: MessageId)
    | ClearsQueue
    | Aborts(writing: bool, ofSchedule: bool)
    | HoldsInput
    | ReleasesInput
    | StopsForHold
    | StopsForEdit(target: BlockId)
    | PassesFailure(failure: BlockId)
    | Disposes
    // The worker's steps.
    | TakesAction
    | WritesMessage
    | OpensContinuation
    | WritesInputs(take: Take)
    | Writes(block: Block)
    | Inserts(at: nat, block: Block)
    | CompletesCall(at: nat)
    | Rewrites(blocks: seq<Block>)
    | AcceptsEdit(blocks: seq<Block>)
    | TakesOver(turn: TurnId)
    | Completes
    | RecordsStop
    | Fails
    | ShutsDown
    | EndsAction
    | StartsNext

  /** A block of a provider's answer, of the context sources or of recovery. */
  predicate IsOutput(block: Block) {
    !block.body.User? && !block.body.Steer?
  }

  /** The worker has the action, which has not recorded how it ended. */
  predicate Works(c: Core) {
    c.activity.Running? && c.activity.run.taken && !c.activity.run.concluded
  }

  predicate WorksOnItsTurn(c: Core) {
    Works(c) && !c.activity.run.unwritten
  }

  /** Whether a rewrite keeps every message. */
  ghost predicate KeepsMessages(a: seq<Block>, b: seq<Block>) {
    forall p: Pattern :: BlockTimes(a, p) == BlockTimes(b, p)
  }

  ghost predicate Enabled(c: Core, e: Event) {
    match e
    case AsksForAction(kind, _) => !kind.Send?
    case AsksForEdit(_) => c.activity.Idle? && !WorkWaits(c.inputs.entries)
    case Reports(report) => report.Report?
    case TakesAction => c.activity.Running? && !c.activity.run.taken
    case WritesMessage => Works(c) && c.activity.run.unwritten && c.activity.run.kind.Send?
    case OpensContinuation => WorksOnItsTurn(c)
    case WritesInputs(_) => WorksOnItsTurn(c)
    // A failure's record says whether the action had begun.
    case Writes(block) =>
      && WorksOnItsTurn(c) && IsOutput(block)
      && (block.body.Error? ==> block.body.outsideTurn == !c.activity.run.began)
    case Inserts(at, block) => WorksOnItsTurn(c) && at <= |c.transcript| && block.body.CompactionBoundary?
    case CompletesCall(at) => WorksOnItsTurn(c) && at < |c.transcript|
    case Rewrites(_) => WorksOnItsTurn(c)
    case AcceptsEdit(_) => WorksOnItsTurn(c) && c.activity.run.kind.Edit? && c.preparing
    case TakesOver(_) => WorksOnItsTurn(c) && !c.activity.run.kind.Send?
    // `run_turn` ends with no call executing; a stopped action does not complete, but an edit being
    // prepared or a switch of versions ends without a record.
    case Completes =>
      && WorksOnItsTurn(c) && !AnyExecuting(c.transcript)
      && (c.activity.run.cancel.None? || c.activity.run.kind.Edit? || c.activity.run.kind.Switch?)
    case RecordsStop => Works(c) && c.activity.run.cancel.Some? && !c.activity.run.cancel.value.Shutdown?
    case Fails => WorksOnItsTurn(c)
    case ShutsDown => Works(c) && c.activity.run.cancel == Some(Shutdown)
    case EndsAction => c.activity.Running? && c.activity.run.concluded
    case StartsNext => c.activity.Finishing?
    case _ => true
  }

  function Concluded(c: Core): Core {
    if c.activity.Running? then c.(activity := Running(c.activity.run.(concluded := true))) else c
  }

  /** The state an event leaves. `seen` are the reports whose ends a look showed, `next` a new identity. */
  function Next(c: Core, e: Event, seen: set<nat>, next: nat): Core
    requires Sound(c) && Enabled(c, e)
  {
    match e
    case SendsMessage(id, content, scheduled) => MessageAdmitted(c, id, content, scheduled, seen, next)
    case AsksForAction(kind, turn) => ActionAdmitted(c, kind, turn, seen, next)
    case AsksForEdit(turn) => if Refuses(c) then c else Pushed(c.(preparing := true), Edit, turn, seen, next)
    case CompactsIdle(turn) => IdleCompactionAdmitted(c, turn, seen, next)
    case Steers(id, content) => Steered(c, id, content, seen, next)
    case SendsAgentMessage(id, content, fromProduct) => AgentMessageAdmitted(c, id, content, fromProduct, seen, next)
    case Reports(report) => ReportAdmitted(c, report, seen, next)
    case CancelsSteer(id) => c.(inputs := WithoutSteer(c.inputs, id))
    case Dequeues(id) => Dequeued(c, id)
    case SendsNext(id) => SentNext(c, id)
    case ClearsQueue => QueueCleared(c)
    case Aborts(writing, ofSchedule) => Aborted(c, writing, ofSchedule)
    case HoldsInput => c.(held := true)
    case ReleasesInput => ReleasedHold(c, seen, next)
    case StopsForHold => StoppedForHold(c)
    case StopsForEdit(target) => StoppedForEdit(c, target)
    case PassesFailure(failure) => FailurePassed(c, failure, seen, next)
    case Disposes => DisposeBegun(c)
    case TakesAction => c.(activity := Running(c.activity.run.(taken := true)))
    case WritesMessage => MessageWritten(c, next)
    case OpensContinuation => ContinuationOpened(c, seen, next)
    case WritesInputs(take) => InputsWritten(c, c.activity.run.turn, take, seen, next)
    case Writes(block) => Wrote(c, c.transcript + [block])
    case Inserts(at, block) => Wrote(c, c.transcript[..at] + [block] + c.transcript[at..])
    case CompletesCall(at) => Wrote(c, c.transcript[at := Settled(c.transcript[at])])
    case Rewrites(blocks) => Wrote(c, blocks)
    case AcceptsEdit(blocks) => Wrote(c.(preparing := false), blocks)
    case TakesOver(turn) => c.(activity := Running(c.activity.run.(turn := turn)))
    case Completes => Concluded(c)
    case RecordsStop => Concluded(StopRecorded(c, c.activity.run.cancel.value, seen, next))
    case Fails => Concluded(Failed(c, seen, next))
    case ShutsDown => ShutDown(c, seen, next)
    case EndsAction => ActionEnded(c)
    case StartsNext => StartNext(c, seen, next)
  }

  // What every state keeps.

  /** An idle session has nothing to do: nothing is queued, no steer waits, and no input would open a
      continuation; when a failed turn of the history alone holds it, no input waits at all. */
  ghost predicate IdleMeansNothingToDo(c: Core) {
    c.activity.Idle? ==>
      && !c.disposing && c.pending == [] && !HasSteer(c.inputs.entries) && !WantsContinuation(c)
      && (FailedTurnHolds(c) && !c.held && LastTurn(c.transcript).Some? ==> c.inputs.entries == [])
  }

  /** A call executes only while the worker runs its action, which wrote it. */
  ghost predicate NoCallDangles(c: Core) {
    AnyExecuting(c.transcript) ==> Works(c) && c.activity.run.began
  }

  /** A closed session has no steer left among its inputs, and only messages in its queue. */
  ghost predicate ClosedKeepsMessagesQueued(c: Core) {
    && (c.activity.Closed? ==> c.disposing && !HasSteer(c.inputs.entries))
    && (c.disposing ==> forall k :: 0 <= k < |c.pending| ==> c.pending[k].kind.Send?)
  }

  ghost predicate RunIsSound(c: Core) {
    c.activity.Running? ==>
      && MessageInItsPlace(c.activity.run)
      && (!c.activity.run.taken ==> !c.activity.run.began && !c.activity.run.concluded)
      && (c.activity.run.concluded ==> !c.activity.run.unwritten)
      && (c.activity.run.cancel == Some(Shutdown) ==> c.disposing)
  }

  /** Everything but where messages are. */
  ghost predicate Sound(c: Core) {
    IdleMeansNothingToDo(c) && NoCallDangles(c) && ClosedKeepsMessagesQueued(c) && RunIsSound(c)
  }

  /** No message is in two places. */
  ghost predicate InOnePlace(c: Core) {
    forall id: MessageId :: Places(c, Pattern(id, None)) <= 1
  }

  lemma {:induction false} NothingTaken(entries: seq<Input>)
    ensures Left(entries, Everything) == []
  {
    if entries != [] {
      NothingTaken(entries[..|entries| - 1]);
    }
  }

  lemma {:induction false} WrittenInputsExecuteNothing(
      inputs: seq<Input>, turn: TurnId, reports: seq<Input>, next: BlockId)
    requires forall k :: 0 <= k < |reports| ==> reports[k].Report?
    ensures !AnyExecuting(BlocksOf(inputs, turn, reports, next))
    decreases |inputs|
  {
    if inputs != [] {
      WrittenInputsExecuteNothing(inputs[1..], turn, reports, next);
      WrittenInputsExecuteNothing(inputs[1..], turn, [], next);
    }
  }

  lemma {:induction false} ExecutingInBoth(a: seq<Block>, b: seq<Block>)
    ensures AnyExecuting(a + b) <==> AnyExecuting(a) || AnyExecuting(b)
  {
    forall k | 0 <= k < |a| && IsExecuting(a[k]) ensures AnyExecuting(a + b) { assert (a + b)[k] == a[k]; }
    forall k | 0 <= k < |b| && IsExecuting(b[k]) ensures AnyExecuting(a + b) { assert (a + b)[|a| + k] == b[k]; }
  }

  /** Writing inputs moves them to the transcript and changes nothing else. */
  lemma {:induction false} WritingInputsChangesLittle(c: Core, turn: TurnId, take: Take, seen: set<nat>, next: nat)
    ensures var r := InputsWritten(c, turn, take, seen, next);
            && r.pending == c.pending && r.held == c.held && r.disposing == c.disposing && r.preparing == c.preparing
            && (AnyExecuting(r.transcript) <==> AnyExecuting(c.transcript))
            && r.activity == (if c.activity.Running?
                              then Running(c.activity.run.(began := r.activity.run.began)) else c.activity)
            && (c.activity.Running? && c.activity.run.began ==> r.activity.run.began)
            && (take.Everything? ==> r.inputs.entries == [])
  {
    var entries := Unseen(c.inputs.entries, seen);
    NothingTaken(entries);
    WrittenInputsExecuteNothing(Taken(entries, take), turn, Inputs.Reports(Taken(entries, take)), next);
    ExecutingInBoth(c.transcript, BlocksOf(Taken(entries, take), turn, Inputs.Reports(Taken(entries, take)), next));
  }

  lemma {:induction false} AClosedSessionIsSound(c: Core, ahead: nat, interrupted: bool)
    requires c.disposing && !AnyExecuting(c.transcript) && ahead <= |c.pending|
    requires forall k :: 0 <= k < |c.pending| ==> c.pending[k].kind.Send?
    ensures Sound(SteersQueued(c, ahead).(activity := Closed(interrupted)))
  {
    QueuedSteersKeepTheirOrder(c, ahead);
    QueuingSteersKeepsMessages(c, ahead, Pattern(0, None));
    SteersAreSends(c.inputs.entries);
    QueuingKeepsTheRest(c, ahead);
  }

  lemma {:induction false} SettlingIdleIsSound(c: Core, seen: set<nat>, next: nat)
    requires c.activity.Idle? && !c.disposing && c.pending == [] && !AnyExecuting(c.transcript)
    requires !HasSteer(c.inputs.entries) && !WantsContinuation(c)
    ensures Sound(WrittenIntoFailedTurn(c, seen, next))
  {
    if LastTurn(c.transcript).Some? {
      WritingInputsChangesLittle(c, LastTurn(c.transcript).value, Everything, seen, next);
    }
  }

  lemma {:induction false} StartedIsSound(c: Core, kind: ActionKind, turn: TurnId)
    requires !AnyExecuting(c.transcript)
    requires c.disposing ==> forall k :: 0 <= k < |c.pending| ==> c.pending[k].kind.Send?
    ensures Sound(Started(c, kind, turn))
  {
  }

  lemma {:induction false} StartingNextIsSound(c: Core, seen: set<nat>, next: nat)
    requires !c.activity.Running? && !AnyExecuting(c.transcript)
    requires c.disposing ==> forall k :: 0 <= k < |c.pending| ==> c.pending[k].kind.Send?
    ensures Sound(StartNext(c, seen, next))
  {
    if c.disposing {
      AClosedSessionIsSound(c, 0, false);
    } else {
      var at := SteerAt(c.inputs.entries, None);
      if !(c.pending != [] && c.pending[0].kind.Send?) && at < |c.inputs.entries| {
        var message := AsMessage(c.inputs.entries[at]);
        StartedIsSound(c.(inputs := Happened(c.inputs, TakesFirstSteer)), message.kind, message.turn);
      } else if c.pending != [] {
        StartedIsSound(c.(pending := c.pending[1..]), c.pending[0].kind, c.pending[0].turn);
      } else if WantsContinuation(c) {
        StartedIsSound(c, Continue, next);
      } else {
        SettlingIdleIsSound(c.(activity := Idle), seen, next);
      }
    }
  }

  lemma {:induction false} SteersAreSends(entries: seq<Input>)
    ensures forall k :: 0 <= k < |SteersAsMessages(entries)| ==> SteersAsMessages(entries)[k].kind.Send?
  {
    if entries != [] {
      SteersAreSends(entries[1..]);
    }
  }

  lemma {:induction false} QueuingKeepsTheRest(c: Core, ahead: nat)
    requires ahead <= |c.pending|
    ensures SteersQueued(c, ahead).disposing == c.disposing
    decreases |c.inputs.entries|
  {
    var at := SteerAt(c.inputs.entries, None);
    if at < |c.inputs.entries| {
      var message := AsMessage(c.inputs.entries[at]);
      QueuingKeepsTheRest(c.(inputs := Happened(c.inputs, TakesFirstSteer),
                             pending := c.pending[..ahead] + [message] + c.pending[ahead..]),
                          ahead + 1);
    }
  }

  // Admissions.

  lemma {:induction false} PushingIsSound(c: Core, kind: ActionKind, turn: TurnId, seen: set<nat>, next: nat)
    requires Sound(c) && !c.disposing
    ensures Sound(Pushed(c, kind, turn, seen, next)) && Sound(c.(preparing := true))
  {
    if c.activity.Idle? {
      StartingNextIsSound(c.(pending := c.pending + [Pending(kind, turn)]), seen, next);
    }
  }

  /** Sound, but that input may have come that wakes it. */
  ghost predicate MayWake(c: Core) {
    && (c.activity.Idle? ==> !c.disposing && c.pending == [])
    && NoCallDangles(c) && ClosedKeepsMessagesQueued(c) && RunIsSound(c)
  }

  lemma {:induction false} WakingIsSound(c: Core, seen: set<nat>, next: nat)
    requires MayWake(c)
    ensures Sound(Woken(c, seen, next))
  {
    if c.activity.Idle? && c.pending == [] {
      StartingNextIsSound(c, seen, next);
    }
  }

  lemma {:induction false} NoSteerAmong(entries: seq<Input>)
    requires forall k :: 0 <= k < |entries| ==> !entries[k].Steer?
    ensures !HasSteer(entries)
  {
  }

  lemma {:induction false} SteersStayAway(entries: seq<Input>, input: Input)
    requires !HasSteer(entries) && !input.Steer?
    ensures !HasSteer(entries + [input])
  {
    NoSteerAmong(entries + [input]);
  }

  lemma {:induction false} AgentMessagesAreSound(
      c: Core, id: MessageId, content: nat, fromProduct: bool, seen: set<nat>, next: nat)
    requires Sound(c)
    ensures Sound(AgentMessageAdmitted(c, id, content, fromProduct, seen, next))
  {
    if !HasSteer(c.inputs.entries) { SteersStayAway(c.inputs.entries, Agent(id, content)); }
    WakingIsSound(c, seen, next);
    var added := c.(inputs := Added(c.inputs, Agent(id, content)));
    WakingIsSound(added, seen, next);
    if added.activity.Idle? { StartedIsSound(added, Continue, next); }
  }

  lemma {:induction false} ReportsAreSound(c: Core, report: Input, seen: set<nat>, next: nat)
    requires Sound(c) && report.Report?
    ensures Sound(ReportAdmitted(c, report, seen, next))
  {
    if !HasSteer(c.inputs.entries) { SteersStayAway(c.inputs.entries, report); }
    WakingIsSound(c.(inputs := Added(c.inputs, report)), seen, next);
  }

  lemma {:induction false} SteersAreSound(c: Core, id: MessageId, content: nat, seen: set<nat>, next: nat)
    requires Sound(c)
    ensures Sound(Steered(c, id, content, seen, next))
  {
    if !c.disposing { PushingIsSound(c, Send(content, false), id, seen, next); }
  }

  lemma {:induction false} CancellingASteerIsSound(c: Core, id: MessageId)
    requires Sound(c)
    ensures Sound(c.(inputs := WithoutSteer(c.inputs, id)))
  {
    if !HasSteer(c.inputs.entries) {
      assert SteerAt(c.inputs.entries, Some(id)) == |c.inputs.entries|;
    }
  }

  lemma {:induction false} DequeuingIsSound(c: Core, id: MessageId)
    requires Sound(c)
    ensures Sound(Dequeued(c, id)) && Sound(QueueCleared(c))
  {
  }

  lemma {:induction false} SendingNextIsSound(c: Core, id: MessageId)
    requires Sound(c)
    ensures Sound(SentNext(c, id))
  {
  }

  lemma {:induction false} AbortingIsSound(c: Core, writing: bool, ofSchedule: bool)
    requires Sound(c)
    ensures Sound(Aborted(c, writing, ofSchedule)) && Sound(StoppedForHold(c))
  {
  }

  lemma {:induction false} StoppingForAnEditIsSound(c: Core, target: BlockId)
    requires Sound(c)
    ensures Sound(StoppedForEdit(c, target))
  {
  }

  lemma {:induction false} DisposingIsSound(c: Core)
    requires Sound(c)
    ensures Sound(DisposeBegun(c))
  {
  }

  // The worker's steps.

  lemma {:induction false} WritingIsSound(c: Core, blocks: seq<Block>)
    requires Sound(c) && WorksOnItsTurn(c)
    ensures Sound(Wrote(c, blocks))
  {
  }

  lemma {:induction false} WritingTheMessageIsSound(c: Core, next: BlockId)
    requires Sound(c) && Works(c) && c.activity.run.unwritten && c.activity.run.kind.Send?
    ensures Sound(MessageWritten(c, next))
  {
  }

  lemma {:induction false} WritingInputsIsSound(c: Core, take: Take, seen: set<nat>, next: nat)
    requires Sound(c) && WorksOnItsTurn(c)
    ensures Sound(InputsWritten(c, c.activity.run.turn, take, seen, next))
    ensures WorksOnItsTurn(InputsWritten(c, c.activity.run.turn, take, seen, next))
  {
    WritingInputsChangesLittle(c, c.activity.run.turn, take, seen, next);
  }

  lemma {:induction false} OpeningAContinuationIsSound(c: Core, seen: set<nat>, next: nat)
    requires Sound(c) && WorksOnItsTurn(c)
    ensures Sound(ContinuationOpened(c, seen, next))
  {
    WritingInputsIsSound(c, Everything, seen, next);
    var unseen := c.(inputs := WithoutSeen(c.inputs, seen));
    WritingIsSound(unseen.(inputs := Happened(unseen.inputs, TakesReports)),
                   c.transcript + [Block(next, Wakeup(c.activity.run.turn, true,
                                                      Events(Inputs.Reports(unseen.inputs.entries))), None, 0)]);
  }

  lemma {:induction false} AbortedCallsExecuteNothing(c: Core)
    ensures !AnyExecuting(CallsAborted(c).transcript)
  {
  }

  lemma {:induction false} AMarkExecutesNothing(c: Core, reason: Reason, givingBack: bool, began: bool, next: BlockId)
    requires !AnyExecuting(c.transcript)
    ensures !AnyExecuting(Marked(c, reason, givingBack, began, next).transcript)
  {
    ExecutingInBoth(c.transcript, [Block(next, Error(false, true), None, 0)]);
    ExecutingInBoth(c.transcript, [Block(next, Abort(false), None, 0)]);
  }

  /** The action runs on in the worker's hands, and nothing else of the session changed. */
  ghost predicate RunsOn(a: Core, b: Core) {
    && Works(a) && Works(b) && b.activity.run.kind == a.activity.run.kind
    && b.disposing == a.disposing && b.pending == a.pending
    && (b.activity.run.unwritten ==> a.activity.run.unwritten) && b.activity.run.cancel == a.activity.run.cancel
  }

  lemma {:induction false} GivingBackRunsOn(c: Core)
    requires Works(c)
    ensures RunsOn(c, GivenBack(c))
  {
  }

  lemma {:induction false} SettlingTheUnwrittenRunsOn(c: Core, reason: Reason, next: BlockId)
    requires Works(c) && (c.activity.run.unwritten ==> c.activity.run.kind.Send?)
    ensures var r := UnwrittenSettled(c, reason, next);
            && RunsOn(c.(pending := r.pending), r) && !r.activity.run.unwritten
            && (r.pending == c.pending
                || (c.activity.run.kind.Send? && r.pending == [Pending(c.activity.run.kind, c.activity.run.turn)] + c.pending))
  {
  }

  lemma {:induction false} AbortingCallsRunsOn(c: Core)
    requires Works(c)
    ensures RunsOn(c, CallsAborted(c)) && !AnyExecuting(CallsAborted(c).transcript)
    ensures CallsAborted(c).inputs == c.inputs
  {
    AbortedCallsExecuteNothing(c);
  }

  lemma {:induction false} MarkingRunsOn(c: Core, reason: Reason, givingBack: bool, began: bool, next: BlockId)
    requires Works(c)
    ensures RunsOn(c, Marked(c, reason, givingBack, began, next))
  {
  }

  lemma {:induction false} ARecordEndsEachCall(c: Core, reason: Reason, givingBack: bool, began: bool, next: BlockId)
    requires Works(c)
    ensures var r := Marked(CallsAborted(c), reason, givingBack, began, next);
            RunsOn(c, r) && !AnyExecuting(r.transcript)
  {
    AbortingCallsRunsOn(c);
    MarkingRunsOn(CallsAborted(c), reason, givingBack, began, next);
    AMarkExecutesNothing(CallsAborted(c), reason, givingBack, began, next);
  }

  /** The stopped action runs on with its message settled, which waits first when a hold stopped it. */
  ghost predicate SettlesItsMessage(c: Core, r: Core) {
    && RunsOn(c.(pending := r.pending), r) && !r.activity.run.unwritten
    && (r.pending == c.pending
        || (c.activity.run.kind.Send? && r.pending == [Pending(c.activity.run.kind, c.activity.run.turn)] + c.pending))
  }

  lemma {:induction false} WritingAStopSettlesTheMessage(c: Core, reason: Reason, seen: set<nat>, next: nat)
    requires Sound(c) && Works(c)
    ensures SettlesItsMessage(c, StopWritten(c, reason, seen, next))
  {
    GivingBackRunsOn(c);
    var given := if reason.Stop? && c.activity.run.givingBack then GivenBack(c) else c;
    assert given.activity.Running? && given.activity.run.turn == c.activity.run.turn;
    SettlingTheUnwrittenRunsOn(given, reason, next);
    var settled := UnwrittenSettled(given, reason, next);
    WritingInputsChangesLittle(settled, settled.activity.run.turn, AllButSteers, seen, next);
  }

  /** A recorded stop leaves the action running with no call executing and its message settled. */
  lemma {:induction false} ARecordedStopEndsEachCall(c: Core, reason: Reason, seen: set<nat>, next: nat)
    requires Sound(c) && Works(c)
    ensures SettlesItsMessage(c, StopRecorded(c, reason, seen, next))
    ensures !AnyExecuting(StopRecorded(c, reason, seen, next).transcript)
  {
    WritingAStopSettlesTheMessage(c, reason, seen, next);
    var written := StopWritten(c, reason, seen, next);
    ARecordEndsEachCall(written, reason, c.activity.run.givingBack, written.activity.run.began, next);
  }

  lemma {:induction false} RecordingAStopIsSound(c: Core, reason: Reason, seen: set<nat>, next: nat)
    requires Sound(c) && Works(c)
    ensures Sound(Concluded(StopRecorded(c, reason, seen, next)))
  {
    ARecordedStopEndsEachCall(c, reason, seen, next);
    AConclusionIsSound(StopRecorded(c, reason, seen, next));
  }

  lemma {:induction false} FailingIsSound(c: Core, seen: set<nat>, next: nat)
    requires Sound(c) && WorksOnItsTurn(c)
    ensures Sound(Concluded(Failed(c, seen, next)))
  {
    WritingInputsIsSound(c, AllButSteers, seen, next);
    AbortingCallsRunsOn(InputsWritten(c, c.activity.run.turn, AllButSteers, seen, next));
    AConclusionIsSound(Failed(c, seen, next));
  }

  /** An action that recorded its end with no call executing and its message in its place. */
  lemma {:induction false} AConclusionIsSound(c: Core)
    requires Works(c) && !c.activity.run.unwritten && !AnyExecuting(c.transcript)
    requires c.disposing ==> forall k :: 0 <= k < |c.pending| ==> c.pending[k].kind.Send?
    requires c.activity.run.cancel == Some(Shutdown) ==> c.disposing
    ensures Sound(Concluded(c))
  {
  }

  lemma {:induction false} ShuttingDownIsSound(c: Core, seen: set<nat>, next: nat)
    requires Sound(c) && Works(c) && c.activity.run.cancel == Some(Shutdown)
    ensures Sound(ShutDown(c, seen, next))
  {
    var run := c.activity.run;
    var rejected := c.(preparing := false);
    if run.began { ARecordedStopEndsEachCall(rejected, Shutdown, seen, next); }
    var stopped := if run.began then StopRecorded(rejected, Shutdown, seen, next)
                   else if run.kind.Send? then rejected.(pending := [Pending(run.kind, run.turn)] + c.pending)
                   else rejected;
    assert !AnyExecuting(stopped.transcript);
    AClosedSessionIsSound(stopped, if !run.began && run.kind.Send? then 1 else 0, run.began);
  }

  lemma {:induction false} AStepFromOutsideIsSound(c: Core, e: Event, seen: set<nat>, next: nat)
    requires Sound(c) && Enabled(c, e) && IsFromOutside(e)
    ensures Sound(Next(c, e, seen, next))
  {
    match e
    case SendsMessage(id, content, scheduled) =>
      if !c.disposing { PushingIsSound(c, Send(content, scheduled), id, seen, next); }
    case AsksForAction(kind, turn) => if !c.disposing { PushingIsSound(c, kind, turn, seen, next); }
    case AsksForEdit(turn) =>
      if !c.disposing {
        PushingIsSound(c, Edit, turn, seen, next);
        PushingIsSound(c.(preparing := true), Edit, turn, seen, next);
      }
    case CompactsIdle(turn) => if !c.disposing { PushingIsSound(c, Compact(true), turn, seen, next); }
    case Steers(id, content) => SteersAreSound(c, id, content, seen, next);
    case SendsAgentMessage(id, content, fromProduct) => AgentMessagesAreSound(c, id, content, fromProduct, seen, next);
    case Reports(report) => ReportsAreSound(c, report, seen, next);
    case CancelsSteer(id) => CancellingASteerIsSound(c, id);
    case Dequeues(id) => DequeuingIsSound(c, id);
    case SendsNext(id) => SendingNextIsSound(c, id);
    case ClearsQueue => DequeuingIsSound(c, 0);
    case Aborts(writing, ofSchedule) => AbortingIsSound(c, writing, ofSchedule);
    case HoldsInput =>
    case ReleasesInput => WakingIsSound(c.(held := false), seen, next);
    case StopsForHold => AbortingIsSound(c, false, false);
    case StopsForEdit(target) => StoppingForAnEditIsSound(c, target);
    case PassesFailure(failure) => WakingIsSound(c.(passedFailure := Some(failure)), seen, next);
    case Disposes => DisposingIsSound(c);
  }

  predicate IsFromOutside(e: Event) {
    match e
    case SendsMessage(_, _, _) | AsksForAction(_, _) | AsksForEdit(_) | CompactsIdle(_) | Steers(_, _) => true
    case SendsAgentMessage(_, _, _) | Reports(_) | CancelsSteer(_) | Dequeues(_) | SendsNext(_) | ClearsQueue => true
    case Aborts(_, _) | HoldsInput | ReleasesInput | StopsForHold | StopsForEdit(_) | PassesFailure(_) | Disposes => true
    case _ => false
  }

  lemma {:induction false} AStepOfTheWorkerIsSound(c: Core, e: Event, seen: set<nat>, next: nat)
    requires Sound(c) && Enabled(c, e) && !IsFromOutside(e)
    ensures Sound(Next(c, e, seen, next))
  {
    match e
    case TakesAction =>
    case WritesMessage => WritingTheMessageIsSound(c, next);
    case OpensContinuation => OpeningAContinuationIsSound(c, seen, next);
    case WritesInputs(take) => WritingInputsIsSound(c, take, seen, next);
    case Writes(block) => WritingIsSound(c, c.transcript + [block]);
    case Inserts(at, block) => WritingIsSound(c, c.transcript[..at] + [block] + c.transcript[at..]);
    case CompletesCall(at) => WritingIsSound(c, c.transcript[at := Settled(c.transcript[at])]);
    case Rewrites(blocks) => WritingIsSound(c, blocks);
    case AcceptsEdit(blocks) => WritingIsSound(c.(preparing := false), blocks);
    case TakesOver(turn) =>
    case Completes => AConclusionIsSound(c);
    case RecordsStop => RecordingAStopIsSound(c, c.activity.run.cancel.value, seen, next);
    case Fails => FailingIsSound(c, seen, next);
    case ShutsDown => ShuttingDownIsSound(c, seen, next);
    case EndsAction =>
    case StartsNext => StartingNextIsSound(c, seen, next);
  }
}
