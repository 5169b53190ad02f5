/** The session's core, whose fields change step by step (crates/agent-session/src/core.rs). */
module CoreClass {
  import opened Wrappers
  import opened Blocks
  import opened Inputs
  import opened SessionCores
  import opened Conservation
  import opened SessionRuns

  lemma {:induction false} AFirstReportIsReported(taken: seq<Input>)
    requires taken != []
    ensures taken[0].Report? ==> Inputs.Reports(taken) != []
  {
    if taken[0].Report? && |taken| > 1 {
      AFirstReportIsReported(taken[..|taken| - 1]);
    }
  }

  /** The block of one input, the reports with the first of them. */
  function BlockOfOne(input: Input, turn: TurnId, reports: seq<Input>, next: nat): seq<Block>
    requires forall j :: 0 <= j < |reports| ==> reports[j].Report?
  {
    match input
    case Steer(id, content) => [Block(id, Body.Steer(turn), None, content)]
    case Agent(id, content) => [Block(id, AgentMessage(turn, Message), None, content)]
    case Report(_, _, _) => if reports == [] then [] else [Block(next, Wakeup(turn, false, Events(reports)), None, 0)]
  }

  function Written(c: Core, blocks: seq<Block>): Core {
    if blocks == [] then c else Wrote(c, c.transcript + blocks)
  }

  lemma {:induction false} WritingInTwoParts(c: Core, first: seq<Block>, rest: seq<Block>)
    ensures Written(Written(c, first), rest) == Written(c, first + rest)
  {
    assert first == [] ==> first + rest == rest;
    assert rest == [] ==> first + rest == first;
    assert c.transcript + first + rest == c.transcript + (first + rest);
  }

  lemma {:induction false} BlocksOneByOne(inputs: seq<Input>, turn: TurnId, reports: seq<Input>, next: nat)
    requires inputs != [] && forall j :: 0 <= j < |reports| ==> reports[j].Report?
    ensures BlocksOf(inputs, turn, reports, next)
            == BlockOfOne(inputs[0], turn, reports, next)
               + BlocksOf(inputs[1..], turn, if inputs[0].Report? then [] else reports, next)
  {
  }

  /** The inputs written one after the other; `reports` are those not written yet. */
  function AllPushed(c: Core, inputs: seq<Input>, turn: TurnId, reports: seq<Input>, next: nat): Core
    requires forall j :: 0 <= j < |reports| ==> reports[j].Report?
    decreases |inputs|
  {
    if inputs == [] then c
    else
      AllPushed(Written(c, BlockOfOne(inputs[0], turn, reports, next)), inputs[1..], turn,
                if inputs[0].Report? then [] else reports, next)
  }

  lemma {:induction false} PushingEachPushesAll(c: Core, inputs: seq<Input>, turn: TurnId, reports: seq<Input>, next: nat)
    requires forall j :: 0 <= j < |reports| ==> reports[j].Report?
    ensures AllPushed(c, inputs, turn, reports, next) == Written(c, BlocksOf(inputs, turn, reports, next))
    decreases |inputs|
  {
    if inputs != [] {
      var left := if inputs[0].Report? then [] else reports;
      var one := BlockOfOne(inputs[0], turn, reports, next);
      BlocksOneByOne(inputs, turn, reports, next);
      PushingEachPushesAll(Written(c, one), inputs[1..], turn, left, next);
      WritingInTwoParts(c, one, BlocksOf(inputs[1..], turn, left, next));
    }
  }

  /** No action runs, no call dangles, and a closing session's queue holds messages only. */
  ghost predicate MayStartNext(c: Core) {
    !c.activity.Running? && !AnyExecuting(c.transcript) && ClosedKeepsMessagesQueued(c)
  }

  class SessionCore {
    const inputs: InputQueue
    var pending: seq<Pending>
    var activity: Activity
    var held: bool
    var disposing: bool
    var preparing: bool
    var transcript: seq<Block>
    var passedFailure: Option<BlockId>
    const recovers: bool

    function Now(): Core
      reads this, inputs
    {
      Core(inputs.Now(), pending, activity, held, disposing, preparing, transcript, passedFailure, recovers)
    }

    constructor (recovers: bool)
      ensures Now() == Core(Queue([], 0), [], Idle, false, false, false, [], None, recovers)
      ensures fresh(inputs)
    {
      this.inputs := new InputQueue();
      this.pending, this.activity, this.held, this.disposing, this.preparing := [], Idle, false, false, false;
      this.transcript, this.passedFailure, this.recovers := [], None, recovers;
    }

    method StartAction(kind: ActionKind, turn: TurnId)
      modifies this
      ensures Now() == Started(old(Now()), kind, turn)
    {
      held := false;
      activity := Running(Run(kind, turn, None, false, false, kind.Send?, false, false));
    }

    /** Turns every waiting steer into a queued message, behind the queue's first `ahead` entries. */
    method QueueSteers(ahead: nat)
      requires ahead <= |pending|
      modifies this, inputs
      ensures Now() == SteersQueued(old(Now()), ahead)
    {
      var at: nat := ahead;
      while HasSteer(inputs.entries)
        invariant at <= |pending| && SteersQueued(Now(), at) == SteersQueued(old(Now()), ahead)
        decreases |inputs.entries|
      {
        QueueFirstSteer(at);
        at := at + 1;
      }
    }

    method QueueFirstSteer(at: nat)
      requires at <= |pending| && HasSteer(inputs.entries)
      modifies this, inputs
      ensures at + 1 <= |pending| && SteersQueued(Now(), at + 1) == SteersQueued(old(Now()), at)
      ensures |inputs.entries| < |old(inputs.entries)|
    {
      TheFirstSteerIsQueuedNext(Now(), at);
      var steer := inputs.TakeFirstSteer();
      pending := pending[..at] + [AsMessage(steer.value)] + pending[at..];
    }

    /** After an action ended, or where input arrives in an idle session: what is next starts. */
    method StartNext(seen: set<nat>, next: nat)
      modifies this, inputs
      ensures Now() == SessionCores.StartNext(old(Now()), seen, next)
      ensures MayStartNext(old(Now())) ==> Sound(Now())
    {
      if MayStartNext(Now()) { StartingNextIsSound(Now(), seen, next); }
      StartOrSettle(seen, next);
    }

    method StartOrSettle(seen: set<nat>, next: nat)
      modifies this, inputs
      ensures Now() == SessionCores.StartNext(old(Now()), seen, next)
    {
      if disposing {
        QueueSteers(0);
        activity := Closed(false);
        return;
      }
      var messageNext := pending != [] && pending[0].kind.Send?;
      if !messageNext {
        var steer := inputs.TakeFirstSteer();
        if steer.Some? {
          StartAction(Send(steer.value.content, false), steer.value.id);
          return;
        }
      }
      if pending != [] {
        var first := pending[0];
        pending := pending[1..];
        StartAction(first.kind, first.turn);
      } else if WantsContinuation(Now()) {
        StartAction(Continue, next);
      } else {
        activity := Idle;
        WriteIntoFailedTurn(seen, next);
      }
    }

    method WriteIntoFailedTurn(seen: set<nat>, next: nat)
      modifies this, inputs
      ensures Now() == WrittenIntoFailedTurn(old(Now()), seen, next)
    {
      if held || !FailedTurnHolds(Now()) {
        return;
      }
      var turn := LastTurn(transcript);
      if turn.None? {
        return;
      }
      WriteInputsInto(turn.value, Everything, seen, next);
    }

    method PushAction(kind: ActionKind, turn: TurnId, seen: set<nat>, next: nat)
      modifies this, inputs
      ensures Now() == Pushed(old(Now()), kind, turn, seen, next)
      ensures Sound(old(Now())) && !old(disposing) ==> Sound(Now())
    {
      if Sound(Now()) && !disposing { PushingIsSound(Now(), kind, turn, seen, next); }
      pending := pending + [Pending(kind, turn)];
      if activity.Idle? {
        StartNext(seen, next);
      }
    }

    method Wake(seen: set<nat>, next: nat)
      modifies this, inputs
      ensures Now() == Woken(old(Now()), seen, next)
      ensures MayWake(old(Now())) ==> Sound(Now())
    {
      if MayWake(Now()) { WakingIsSound(Now(), seen, next); }
      if activity.Idle? && pending == [] {
        StartNext(seen, next);
      }
    }

    /** Appends the block, which the running action wrote. */
    method Push(block: Block)
      modifies this
      ensures Now() == Wrote(old(Now()), old(transcript) + [block])
    {
      transcript := transcript + [block];
      if activity.Running? {
        activity := Running(activity.run.(began := true));
      }
    }

    /** Writes the waiting input `take` names into `turn`, in arrival order, the reports as one block
        where the first of them arrived. */
    method WriteInputsInto(turn: TurnId, take: Take, seen: set<nat>, next: nat)
      modifies this, inputs
      ensures Now() == InputsWritten(old(Now()), turn, take, seen, next)
    {
      inputs.RetainReports(seen);
      var taken := inputs.TakeAll(take);
      if taken == [] {
        return;
      }
      PushInputs(taken, turn, next);
    }

    method PushInputs(taken: seq<Input>, turn: TurnId, next: nat)
      requires taken != []
      modifies this
      ensures Now() == Wrote(old(Now()), old(transcript) + BlocksOf(taken, turn, Inputs.Reports(taken), next))
    {
      var (left, reports) := (taken, Inputs.Reports(taken));
      AFirstReportIsReported(taken);
      PushingEachPushesAll(Now(), taken, turn, reports, next);
      while left != []
        invariant forall j :: 0 <= j < |reports| ==> reports[j].Report?
        invariant AllPushed(Now(), left, turn, reports, next)
                  == AllPushed(old(Now()), taken, turn, Inputs.Reports(taken), next)
        decreases |left|
      {
        reports := PushInput(left[0], turn, reports, next);
        left := left[1..];
      }
    }

    /** Writes the block of one input, and answers the reports that are not written yet. */
    method PushInput(input: Input, turn: TurnId, reports: seq<Input>, next: nat) returns (left: seq<Input>)
      requires forall j :: 0 <= j < |reports| ==> reports[j].Report?
      modifies this
      ensures left == if input.Report? then [] else reports
      ensures Now() == Written(old(Now()), BlockOfOne(input, turn, reports, next))
    {
      left := reports;
      match input {
        case Steer(id, content) => Push(Block(id, Body.Steer(turn), None, content));
        case Agent(id, content) => Push(Block(id, AgentMessage(turn, Message), None, content));
        case Report(_, _, _) =>
          if reports != [] {
            Push(Block(next, Wakeup(turn, false, Events(reports)), None, 0));
            left := [];
          }
      }
    }

    /** A person's steer: it waits for a boundary, or is sent when nothing runs; false once the session
        takes no more. */
    method Steer(id: MessageId, content: nat, seen: set<nat>, next: nat) returns (accepted: bool)
      modifies this, inputs
      ensures Now() == Steered(old(Now()), id, content, seen, next)
      ensures accepted == (KnowsSteer(old(Now()), id) || !(old(disposing) || old(activity).Closed?))
      ensures Sound(old(Now())) ==> Sound(Now())
    {
      if Sound(Now()) { SteersAreSound(Now(), id, content, seen, next); }
      if KnowsSteer(Now(), id) {
        return true;
      }
      if disposing || activity.Closed? {
        return false;
      }
      if activity.Idle? {
        PushAction(Send(content, false), id, seen, next);
      } else {
        inputs.Add(Input.Steer(id, content));
      }
      accepted := true;
    }

    method AdmitSend(id: MessageId, content: nat, scheduled: bool, seen: set<nat>, next: nat)
      modifies this, inputs
      ensures Now() == MessageAdmitted(old(Now()), id, content, scheduled, seen, next)
      ensures Sound(old(Now())) ==> Sound(Now())
    {
      if Sound(Now()) && !disposing { PushingIsSound(Now(), Send(content, scheduled), id, seen, next); }
      if disposing || preparing || KnowsTurn(Now(), id) {
        return;
      }
      PushAction(Send(content, scheduled), id, seen, next);
    }

    method AdmitReport(report: Input, seen: set<nat>, next: nat)
      requires report.Report?
      modifies this, inputs
      ensures Now() == ReportAdmitted(old(Now()), report, seen, next)
      ensures Sound(old(Now())) ==> Sound(Now())
    {
      if Sound(Now()) { ReportsAreSound(Now(), report, seen, next); }
      if disposing || report.number in seen {
        return;
      }
      inputs.Add(report);
      Wake(seen, next);
    }

    method AdmitAgentMessage(id: MessageId, content: nat, fromProduct: bool, seen: set<nat>, next: nat)
      modifies this, inputs
      ensures Now() == AgentMessageAdmitted(old(Now()), id, content, fromProduct, seen, next)
      ensures Sound(old(Now())) ==> Sound(Now())
    {
      if Sound(Now()) { AgentMessagesAreSound(Now(), id, content, fromProduct, seen, next); }
      if disposing || preparing {
        return;
      }
      var existing := AgentMessageOf(Now(), id);
      if existing.Some? {
        if existing == Some(content) {
          Wake(seen, next);
        }
        return;
      }
      if HoldsBlock(transcript, id) || ContainsInput(inputs.entries, id) {
        return;
      }
      inputs.Add(Agent(id, content));
      if !fromProduct {
        Wake(seen, next);
      } else if activity.Idle? && pending == [] {
        StartAction(Continue, next);
      }
    }

    method Release(seen: set<nat>, next: nat)
      modifies this, inputs
      ensures Now() == ReleasedHold(old(Now()), seen, next)
      ensures Sound(old(Now())) ==> Sound(Now())
    {
      if Sound(Now()) { WakingIsSound(Now().(held := false), seen, next); }
      held := false;
      Wake(seen, next);
    }

    method FailurePassed(failure: BlockId, seen: set<nat>, next: nat)
      modifies this, inputs
      ensures Now() == SessionCores.FailurePassed(old(Now()), failure, seen, next)
      ensures Sound(old(Now())) ==> Sound(Now())
    {
      if Sound(Now()) { WakingIsSound(Now().(passedFailure := Some(failure)), seen, next); }
      var last := TurnFailure(transcript);
      if last.Some? && last.value.id == failure {
        passedFailure := Some(failure);
        Wake(seen, next);
      }
    }

    /** Moves the queued message `id` ahead of every other; false when none is queued. */
    method SendNext(id: MessageId) returns (moved: bool)
      modifies this
      ensures Now() == SentNext(old(Now()), id)
      ensures Sound(old(Now())) ==> Sound(Now())
    {
      if Sound(Now()) { SendingNextIsSound(Now(), id); }
      if disposing {
        return false;
      }
      var at := QueuedAt(pending, Some(id));
      if at == |pending| {
        return false;
      }
      var action := pending[at];
      pending := pending[..at] + pending[at + 1..];
      var front := QueuedAt(pending, None);
      pending := pending[..front] + [action] + pending[front..];
      moved := true;
    }

    method ClearQueue() returns (cleared: nat)
      modifies this
      ensures Now() == QueueCleared(old(Now()))
      ensures Sound(old(Now())) ==> Sound(Now())
    {
      if Sound(Now()) { DequeuingIsSound(Now(), 0); }
      if disposing {
        return 0;
      }
      var kept: seq<Pending> := [];
      cleared := 0;
      for k := 0 to |pending|
        invariant Now() == old(Now())
        invariant kept == Others(pending[..k]) && cleared + |kept| == k
      {
        assert pending[..k + 1][..k] == pending[..k];
        if pending[k].kind.Send? {
          cleared := cleared + 1;
        } else {
          kept := kept + [pending[k]];
        }
      }
      assert pending[..|pending|] == pending;
      pending := kept;
    }

    method AbortStep(writing: bool, ofSchedule: bool)
      modifies this
      ensures Now() == Aborted(old(Now()), writing, ofSchedule)
      ensures Sound(old(Now())) ==> Sound(Now())
    {
      if Sound(Now()) { AbortingIsSound(Now(), writing, ofSchedule); }
      if disposing {
        return;
      }
      var givingBack := WouldGiveBack(Now(), writing, ofSchedule);
      if activity.Running? && activity.run.cancel.None? {
        activity := Running(activity.run.(cancel := Some(Stop), givingBack := givingBack));
        return;
      }
      if pending != [] {
        pending := pending[1..];
      }
    }

    /** An edit replaces the message `target`: its turn, if that is the one running, stops first; whether it
        did. */
    method StopForEdit(target: BlockId) returns (stopped: bool)
      modifies this
      ensures Now() == StoppedForEdit(old(Now()), target)
      ensures stopped == (RunningMessage(old(Now())) == Some(target))
      ensures Sound(old(Now())) ==> Sound(Now())
    {
      if Sound(Now()) { StoppingForAnEditIsSound(Now(), target); }
      if RunningMessage(Now()) != Some(target) {
        return false;
      }
      activity := Running(activity.run.(cancel := Some(Stop)));
      stopped := true;
    }

    method BeginDispose()
      modifies this
      ensures Now() == DisposeBegun(old(Now()))
      ensures Sound(old(Now())) ==> Sound(Now())
    {
      if Sound(Now()) { DisposingIsSound(Now()); }
      if disposing {
        return;
      }
      disposing := true;
      pending := Sends(pending);
      if activity.Running? && activity.run.cancel.None? {
        activity := Running(activity.run.(cancel := Some(Shutdown)));
      }
      if activity.Idle? {
        activity := Closed(false);
      }
    }

    method PushUser(next: BlockId)
      requires activity.Running? && activity.run.kind.Send?
      modifies this
      ensures Now() == MessageWritten(old(Now()), next)
      ensures Sound(old(Now())) && Works(old(Now())) && old(activity.run.unwritten) ==> Sound(Now())
    {
      if Sound(Now()) && Works(Now()) && activity.run.unwritten { WritingTheMessageIsSound(Now(), next); }
      var run := activity.run;
      transcript := transcript + [Block(next, User(run.turn), None, run.kind.content)];
      activity := Running(run.(unwritten := false, began := true));
    }

    method GiveBack()
      requires activity.Running?
      modifies this
      ensures Now() == GivenBack(old(Now()))
    {
      if activity.run.unwritten {
        activity := Running(activity.run.(unwritten := false));
        return;
      }
      var at := UserBlockAt(transcript, activity.run.turn);
      if at.Some? {
        transcript := transcript[..at.value];
      }
    }

    /** Completes each running call. */
    method AbortExecutingCalls()
      modifies this
      ensures Now() == CallsAborted(old(Now()))
    {
      if !AnyExecuting(transcript) {
        return;
      }
      ghost var before := transcript;
      for k := 0 to |transcript|
        invariant |transcript| == |before| && Now() == old(Now()).(transcript := transcript)
        invariant forall j :: 0 <= j < k ==> transcript[j] == Settled(before[j])
        invariant forall j :: k <= j < |before| ==> transcript[j] == before[j]
      {
        transcript := transcript[k := Settled(transcript[k])];
      }
      assert transcript == AllSettled(before);
      if activity.Running? {
        activity := Running(activity.run.(began := true));
      }
    }

    /** Settles the stopped action's message and writes the inputs a stop writes. */
    method WriteStop(reason: Reason, seen: set<nat>, next: nat)
      requires activity.Running? && (activity.run.unwritten ==> activity.run.kind.Send?)
      modifies this, inputs
      ensures Now() == StopWritten(old(Now()), reason, seen, next)
    {
      if reason.Stop? && activity.run.givingBack {
        GiveBack();
      }
      SettleUnwritten(reason, next);
      if !reason.Shutdown? {
        WriteInputsInto(activity.run.turn, AllButSteers, seen, next);
      }
    }

    method SettleUnwritten(reason: Reason, next: nat)
      requires activity.Running? && (activity.run.unwritten ==> activity.run.kind.Send?)
      modifies this
      ensures Now() == UnwrittenSettled(old(Now()), reason, next)
    {
      if !activity.run.unwritten {
        return;
      }
      var run := activity.run;
      match reason {
        case Stop => PushUser(next);
        case Hold =>
          activity := Running(run.(unwritten := false));
          pending := [Pending(run.kind, run.turn)] + pending;
        case Shutdown => activity := Running(run.(unwritten := false));
      }
    }

    /** Marks where the action stopped. */
    method Mark(reason: Reason, givingBack: bool, began: bool, next: nat)
      modifies this
      ensures Now() == Marked(old(Now()), reason, givingBack, began, next)
    {
      if reason.Shutdown? {
        if !EndsWithInterruption(transcript) {
          Push(Block(next, Error(false, true), None, 0));
        }
      } else if !(givingBack && reason.Stop?) && began {
        Push(Block(next, Abort(false), None, 0));
      }
    }

    /** A stopped action records the stop. */
    method RecordStop(reason: Reason, seen: set<nat>, next: nat)
      requires activity.Running? && (activity.run.unwritten ==> activity.run.kind.Send?)
      modifies this, inputs
      ensures Now() == StopRecorded(old(Now()), reason, seen, next)
      ensures Sound(old(Now())) && Works(old(Now())) ==> Sound(Concluded(Now()))
    {
      if Sound(Now()) && Works(Now()) { RecordingAStopIsSound(Now(), reason, seen, next); }
      var givingBack := activity.run.givingBack;
      WriteStop(reason, seen, next);
      var began := activity.run.began;
      AbortExecutingCalls();
      Mark(reason, givingBack, began, next);
    }

    method Fail(seen: set<nat>, next: nat)
      requires activity.Running?
      modifies this, inputs
      ensures Now() == Failed(old(Now()), seen, next)
      ensures Sound(old(Now())) && WorksOnItsTurn(old(Now())) ==> Sound(Concluded(Now()))
    {
      if Sound(Now()) && WorksOnItsTurn(Now()) { FailingIsSound(Now(), seen, next); }
      WriteInputsInto(activity.run.turn, AllButSteers, seen, next);
      AbortExecutingCalls();
    }

    method EndAction()
      modifies this
      ensures Now() == ActionEnded(old(Now()))
      ensures Sound(old(Now())) && old(activity).Running? && old(activity.run.concluded) ==> Sound(Now())
    {
      activity := Finishing;
      preparing := false;
    }

    /** Records the interruption of an action that began, or puts its message back; how many messages
        are then ahead of the steers. */
    method StopForShutdown(seen: set<nat>, next: nat) returns (ahead: nat)
      requires activity.Running? && (activity.run.unwritten ==> activity.run.kind.Send?)
      modifies this, inputs
      ensures var (before, run) := (old(Now()), old(activity.run));
              Now() == if run.began then StopRecorded(before, Shutdown, seen, next)
                       else if run.kind.Send? then before.(pending := [Pending(run.kind, run.turn)] + before.pending)
                       else before
      ensures ahead == if !old(activity.run.began) && old(activity.run.kind).Send? then 1 else 0
      ensures ahead <= |pending|
    {
      ahead := 0;
      if activity.run.began {
        RecordStop(Shutdown, seen, next);
      } else if activity.run.kind.Send? {
        pending := [Pending(activity.run.kind, activity.run.turn)] + pending;
        ahead := 1;
      }
    }

    /** The end of an action that a dispose cancelled; whether a begun turn was cut short. */
    method ShutDown(seen: set<nat>, next: nat) returns (began: bool)
      requires activity.Running? && (activity.run.unwritten ==> activity.run.kind.Send?)
      modifies this, inputs
      ensures Now() == SessionCores.ShutDown(old(Now()), seen, next) && began == old(activity.run.began)
      ensures Sound(old(Now())) && Works(old(Now())) && old(activity.run.cancel) == Some(Shutdown) ==> Sound(Now())
    {
      if Sound(Now()) && Works(Now()) && activity.run.cancel == Some(Shutdown) { ShuttingDownIsSound(Now(), seen, next); }
      began := activity.run.began;
      EndWithTheSession(seen, next);
    }

    method EndWithTheSession(seen: set<nat>, next: nat)
      requires activity.Running? && (activity.run.unwritten ==> activity.run.kind.Send?)
      modifies this, inputs
      ensures Now() == SessionCores.ShutDown(old(Now()), seen, next)
    {
      var began := activity.run.began;
      preparing := false;
      var ahead := StopForShutdown(seen, next);
      QueueSteers(ahead);
      activity := Closed(began);
    }
  }
}
