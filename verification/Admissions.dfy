/**
 When waiting input opens a turn, when an idle compaction starts, and how long an edit keeps others out
 (crates/agent-session/src/core.rs).
 */
module Admissions {
  import opened Wrappers
  import opened Blocks
  import opened Inputs
  import opened SessionCores
  import opened Conservation
  import opened SessionRuns
  import opened MessageRuns
  import opened ArrivedInputs
  import opened Boundaries

  /** The last turn failed, its user recovers it, and the failure did not pass. */
  ghost predicate FailureHolds(c: Core) {
    c.recovers && exists k: nat :: FailedLast(c.transcript, k) && c.passedFailure != Some(c.transcript[k].id)
  }

  lemma {:induction false} AFailedTurnHoldsExactlyWhen(c: Core)
    ensures FailedTurnHolds(c) <==> FailureHolds(c)
  {
    TheTurnFailureIsTheLastRecord(c.transcript);
  }

  lemma {:induction false} AnIdleSessionWaits(c: Core)
    requires Sound(c) && c.activity.Idle?
    ensures c.pending == [] && !c.disposing && SteerAt(c.inputs.entries, None) == |c.inputs.entries|
    ensures !c.held && !FailureHolds(c) ==> !HasReport(c.inputs.entries) && !HasAgentInput(c.inputs.entries)
  {
    AFailedTurnHoldsExactlyWhen(c);
  }

  /** What an idle session with no message or action does: a continuation, or nothing. */
  lemma {:induction false} AnIdleSessionStarts(c: Core, seen: set<nat>, next: nat)
    requires c.activity.Idle? && c.pending == [] && !c.disposing && SteerAt(c.inputs.entries, None) == |c.inputs.entries|
    ensures var after := Woken(c, seen, next);
            if !c.held && !FailureHolds(c) && (HasReport(c.inputs.entries) || HasAgentInput(c.inputs.entries))
            then after.activity == Running(Run(Continue, next, None, false, false, false, false, false)) && after.inputs == c.inputs
            else after.activity.Idle?
  {
    AFailedTurnHoldsExactlyWhen(c);
    if LastTurn(c.transcript).Some? {
      WritingInputsChangesLittle(c, LastTurn(c.transcript).value, Everything, seen, next);
    }
  }

  lemma {:induction false} OneMoreInput(entries: seq<Input>, input: Input)
    requires !input.Steer? && SteerAt(entries, None) == |entries|
    ensures SteerAt(entries + [input], None) == |entries| + 1
    ensures HasReport(entries + [input]) <==> HasReport(entries) || (input.Report? && input.opensTurn)
    ensures HasAgentInput(entries + [input]) <==> HasAgentInput(entries) || input.Agent?
  {
    var all := entries + [input];
    SteersStayAway(entries, input);
    assert all[|entries|] == input && forall k :: 0 <= k < |entries| ==> all[k] == entries[k];
  }

  /** The arrival opens a turn by itself: a decision of the user's always, and any other unless the session holds
      its input or a failed turn does, and unless it is a report that only joins turns. */
  ghost predicate OpensATurn(c: Core, e: Event) {
    (e.SendsAgentMessage? && e.fromProduct)
    || (!c.held && !FailureHolds(c) && (e.SendsAgentMessage? || (e.Reports? && e.report.Report? && e.report.opensTurn)))
  }

  /** An input that an idle session takes in opens a continuation exactly then, which finds it waiting. */
  lemma {:induction false} AnArrivalOpensATurnExactlyWhen(c: Core, e: Event, seen: set<nat>, next: nat)
    requires Sound(c) && Enabled(c, e) && c.activity.Idle? && (e.SendsAgentMessage? || e.Reports?) && TakesIn(c, e, seen)
    ensures var after := Next(c, e, seen, next);
            && (after.activity.Running? <==> OpensATurn(c, e))
            && (after.activity.Running? ==>
                  && after.activity.run.kind.Continue? && after.activity.run.turn == next
                  && after.inputs.entries == c.inputs.entries + [Arrived(e).value])
  {
    var input := Arrived(e).value;
    var added := c.(inputs := Added(c.inputs, input));
    AnIdleSessionWaits(c);
    OneMoreInput(c.inputs.entries, input);
    AnIdleSessionStarts(added, seen, next);
    if e.SendsAgentMessage? { AnAgentMessageIsTakenInExactlyWhen(c, e.id, e.content, e.fromProduct, seen, next); }
  }

  /** The failure of a turn that is still the last passes: what waits opens a turn then. Of any other failure
      nothing changes. */
  lemma {:induction false} APassedFailureLetsInputIn(c: Core, failure: BlockId, seen: set<nat>, next: nat)
    requires Sound(c) && c.activity.Idle? && !c.held
    ensures var after := Next(c, PassesFailure(failure), seen, next);
            if exists k: nat :: FailedLast(c.transcript, k) && c.transcript[k].id == failure
            then after.activity.Running? <==> HasReport(c.inputs.entries) || HasAgentInput(c.inputs.entries)
            else after == c
  {
    TheTurnFailureIsTheLastRecord(c.transcript);
    AnIdleSessionWaits(c);
    AnIdleSessionStarts(c.(passedFailure := Some(failure)), seen, next);
    if k: nat :| FailedLast(c.transcript, k) && c.transcript[k].id == failure {
      NoOtherFailure(c.transcript, k);
    }
  }

  lemma {:induction false} NoOtherFailure(blocks: seq<Block>, k: nat)
    requires FailedLast(blocks, k)
    ensures forall j: nat :: FailedLast(blocks, j) ==> j == k
  {
  }

  /** The end of a hold opens a turn for what waits, unless a failed turn holds it. */
  lemma {:induction false} AReleaseLetsInputIn(c: Core, seen: set<nat>, next: nat)
    requires Sound(c) && c.activity.Idle?
    ensures Next(c, ReleasesInput, seen, next).activity.Running?
            <==> !FailureHolds(c) && (HasReport(c.inputs.entries) || HasAgentInput(c.inputs.entries))
  {
    AnIdleSessionWaits(c);
    AnIdleSessionStarts(c.(held := false), seen, next);
  }

  /** An idle compaction starts at once or not at all: exactly when the session is idle and admits actions. */
  lemma {:induction false} AnIdleCompactionStartsAtOnceExactlyWhen(c: Core, turn: TurnId, seen: set<nat>, next: nat)
    requires Sound(c)
    ensures var after := Next(c, CompactsIdle(turn), seen, next);
            if c.activity.Idle? && !c.disposing && !c.preparing
            then after.activity.Running? && after.activity.run.kind == Compact(true) && after.activity.run.turn == turn
                 && after.pending == []
            else after == c
  {
    if c.activity.Idle? { AnIdleSessionWaits(c); }
  }

  // An edit that is prepared keeps others out until its action ends.

  /** A session that prepares an edit runs it. */
  ghost predicate RunsWhatItPrepares(c: Core) {
    c.preparing ==> c.activity.Running? && c.activity.run.kind.Edit?
  }

  /** The action runs on, as the edit it may be. */
  ghost predicate KeepsItsAction(c: Core, after: Core) {
    && (c.activity.Running? ==> after.activity.Running? && after.activity.run.kind == c.activity.run.kind)
    && (after.preparing ==> c.preparing)
  }

  lemma {:induction false} StartingNextPreparesNothing(c: Core, seen: set<nat>, next: nat)
    ensures StartNext(c, seen, next).preparing == c.preparing
  {
    QueuingPreparesNothing(c, 0);
    if LastTurn(c.transcript).Some? {
      WritingInputsChangesLittle(c.(activity := Idle), LastTurn(c.transcript).value, Everything, seen, next);
    }
  }

  lemma {:induction false} QueuingPreparesNothing(c: Core, ahead: nat)
    requires ahead <= |c.pending|
    ensures SteersQueued(c, ahead).preparing == c.preparing
    decreases |c.inputs.entries|
  {
    var at := SteerAt(c.inputs.entries, None);
    if at < |c.inputs.entries| {
      var message := AsMessage(c.inputs.entries[at]);
      QueuingPreparesNothing(c.(inputs := Happened(c.inputs, TakesFirstSteer),
                                pending := c.pending[..ahead] + [message] + c.pending[ahead..]),
                             ahead + 1);
    }
  }

  lemma {:induction false} PushingKeepsTheAction(c: Core, kind: ActionKind, turn: TurnId, seen: set<nat>, next: nat)
    ensures KeepsItsAction(c, Pushed(c, kind, turn, seen, next))
  {
    StartingNextPreparesNothing(c.(pending := c.pending + [Pending(kind, turn)]), seen, next);
  }

  lemma {:induction false} WakingKeepsTheAction(c: Core, seen: set<nat>, next: nat)
    ensures KeepsItsAction(c, Woken(c, seen, next))
  {
    StartingNextPreparesNothing(c, seen, next);
  }

  lemma {:induction false} AnAdmissionKeepsTheAction(c: Core, e: Event, seen: set<nat>, next: nat)
    requires Sound(c) && Enabled(c, e)
    requires e.SendsMessage? || e.AsksForAction? || e.CompactsIdle? || e.Steers?
    ensures KeepsItsAction(c, Next(c, e, seen, next))
  {
    match e
    case SendsMessage(id, content, scheduled) => PushingKeepsTheAction(c, Send(content, scheduled), id, seen, next);
    case AsksForAction(kind, turn) => PushingKeepsTheAction(c, kind, turn, seen, next);
    case CompactsIdle(turn) => PushingKeepsTheAction(c, Compact(true), turn, seen, next);
    case Steers(id, content) => PushingKeepsTheAction(c, Send(content, false), id, seen, next);
  }

  lemma {:induction false} AnAgentMessageKeepsTheAction(
      c: Core, id: MessageId, content: nat, fromProduct: bool, seen: set<nat>, next: nat)
    ensures KeepsItsAction(c, AgentMessageAdmitted(c, id, content, fromProduct, seen, next))
  {
    WakingKeepsTheAction(c, seen, next);
    WakingKeepsTheAction(c.(inputs := Added(c.inputs, Agent(id, content))), seen, next);
  }

  lemma {:induction false} AReportKeepsTheAction(c: Core, report: Input, seen: set<nat>, next: nat)
    requires report.Report?
    ensures KeepsItsAction(c, ReportAdmitted(c, report, seen, next))
  {
    WakingKeepsTheAction(c.(inputs := Added(c.inputs, report)), seen, next);
  }

  lemma {:induction false} AnArrivalKeepsTheAction(c: Core, e: Event, seen: set<nat>, next: nat)
    requires Sound(c) && Enabled(c, e)
    requires e.SendsAgentMessage? || e.Reports? || e.ReleasesInput? || e.PassesFailure?
    ensures KeepsItsAction(c, Next(c, e, seen, next))
  {
    match e
    case SendsAgentMessage(id, content, fromProduct) => AnAgentMessageKeepsTheAction(c, id, content, fromProduct, seen, next);
    case Reports(report) => AReportKeepsTheAction(c, report, seen, next);
    case ReleasesInput => WakingKeepsTheAction(c.(held := false), seen, next);
    case PassesFailure(failure) => WakingKeepsTheAction(c.(passedFailure := Some(failure)), seen, next);
  }

  lemma {:induction false} AWithdrawalKeepsTheAction(c: Core, e: Event, seen: set<nat>, next: nat)
    requires Sound(c) && Enabled(c, e)
    requires e.CancelsSteer? || e.Dequeues? || e.SendsNext? || e.ClearsQueue? || e.Aborts? || e.HoldsInput? || e.StopsForHold?
             || e.StopsForEdit? || e.Disposes?
    ensures KeepsItsAction(c, Next(c, e, seen, next))
  {
  }

  lemma {:induction false} GivingBackPreparesNothing(c: Core, reason: Reason, next: nat)
    requires c.activity.Running? && (c.activity.run.unwritten ==> c.activity.run.kind.Send?)
    ensures GivenBack(c).preparing == c.preparing && UnwrittenSettled(c, reason, next).preparing == c.preparing
  {
  }

  lemma {:induction false} WritingAStopPreparesNothing(c: Core, reason: Reason, seen: set<nat>, next: nat)
    requires c.activity.Running? && (c.activity.run.unwritten ==> c.activity.run.kind.Send?)
    ensures StopWritten(c, reason, seen, next).preparing == c.preparing
  {
    GivingBackPreparesNothing(c, reason, next);
    var given := if reason.Stop? && c.activity.run.givingBack then GivenBack(c) else c;
    GivingBackPreparesNothing(given, reason, next);
    var settled := UnwrittenSettled(given, reason, next);
    WritingInputsChangesLittle(settled, settled.activity.run.turn, AllButSteers, seen, next);
  }

  lemma {:induction false} MarkingPreparesNothing(c: Core, reason: Reason, givingBack: bool, began: bool, next: nat)
    ensures Marked(CallsAborted(c), reason, givingBack, began, next).preparing == c.preparing
  {
  }

  lemma {:induction false} ARecordedStopPreparesNothing(c: Core, reason: Reason, seen: set<nat>, next: nat)
    requires c.activity.Running? && (c.activity.run.unwritten ==> c.activity.run.kind.Send?)
    ensures StopRecorded(c, reason, seen, next).preparing == c.preparing
  {
    WritingAStopPreparesNothing(c, reason, seen, next);
    var written := StopWritten(c, reason, seen, next);
    MarkingPreparesNothing(written, reason, c.activity.run.givingBack, written.activity.run.began, next);
  }

  lemma {:induction false} AStopKeepsTheAction(c: Core, seen: set<nat>, next: nat)
    requires Sound(c) && Enabled(c, RecordsStop)
    ensures KeepsItsAction(c, Next(c, RecordsStop, seen, next))
  {
    ARecordedStopEndsEachCall(c, c.activity.run.cancel.value, seen, next);
    ARecordedStopPreparesNothing(c, c.activity.run.cancel.value, seen, next);
  }

  lemma {:induction false} WorkKeepsTheAction(c: Core, e: Event, seen: set<nat>, next: nat)
    requires Sound(c) && Enabled(c, e) && WorksOnItsTurn(c) && !IsFromOutside(e) && !e.RecordsStop? && !e.ShutsDown?
    ensures KeepsItsAction(c, Next(c, e, seen, next))
  {
    if e.OpensContinuation? || e.WritesInputs? || e.Fails? {
      var take := if e.WritesInputs? then e.take else if e.Fails? then AllButSteers else Everything;
      WritingInputsChangesLittle(c, c.activity.run.turn, take, seen, next);
    }
  }

  lemma {:induction false} AStepOfTheWorkerPrepares(c: Core, e: Event, seen: set<nat>, next: nat)
    requires Sound(c) && Enabled(c, e) && !IsFromOutside(e) && RunsWhatItPrepares(c)
    ensures RunsWhatItPrepares(Next(c, e, seen, next))
  {
    if e.RecordsStop? {
      AStopKeepsTheAction(c, seen, next);
    } else if e.StartsNext? {
      StartingNextPreparesNothing(c, seen, next);
    } else if e.ShutsDown? {
      AShutdownPreparesNothing(c, seen, next);
    } else if WorksOnItsTurn(c) {
      WorkKeepsTheAction(c, e, seen, next);
    }
  }

  lemma {:induction false} AShutdownPreparesNothing(c: Core, seen: set<nat>, next: nat)
    requires Sound(c) && Works(c) && c.activity.run.cancel == Some(Shutdown)
    ensures !ShutDown(c, seen, next).preparing
  {
    var run := c.activity.run;
    var rejected := c.(preparing := false);
    var stopped := if run.began then StopRecorded(rejected, Shutdown, seen, next)
                   else if run.kind.Send? then rejected.(pending := [Pending(run.kind, run.turn)] + c.pending)
                   else rejected;
    assert !stopped.preparing;
    QueuingPreparesNothing(stopped, if !run.began && run.kind.Send? then 1 else 0);
  }

  /** Over every step: nothing but the edit itself is admitted while it is prepared, and it is prepared only while its
      action runs, so that no end of it leaves the session refusing. */
  lemma {:induction false} EveryStepRunsWhatItPrepares(c: Core, e: Event, seen: set<nat>, next: nat)
    requires Sound(c) && Enabled(c, e) && RunsWhatItPrepares(c)
    ensures RunsWhatItPrepares(Next(c, e, seen, next))
    ensures c.preparing && (e.SendsMessage? || e.AsksForAction? || e.AsksForEdit? || e.CompactsIdle? || e.SendsAgentMessage?) ==>
              Next(c, e, seen, next) == c
  {
    if e.AsksForEdit? {
      AnIdleSessionWaits(c);
    } else if e.SendsMessage? || e.AsksForAction? || e.CompactsIdle? || e.Steers? {
      AnAdmissionKeepsTheAction(c, e, seen, next);
    } else if e.SendsAgentMessage? || e.Reports? || e.ReleasesInput? || e.PassesFailure? {
      AnArrivalKeepsTheAction(c, e, seen, next);
    } else if IsFromOutside(e) {
      AWithdrawalKeepsTheAction(c, e, seen, next);
    } else {
      AStepOfTheWorkerPrepares(c, e, seen, next);
    }
  }

  /** Over every run of a session an edit is prepared only while its action runs. */
  lemma {:induction false} EveryRunRunsWhatItPrepares(c: Core, run: seq<Occurrence>)
    requires Sound(c) && Occurs(c, run) && RunsWhatItPrepares(c)
    ensures RunsWhatItPrepares(After(c, run))
    decreases |run|
  {
    if run != [] {
      var (e, seen, next) := (run[0].event, run[0].seen, run[0].next);
      EveryStepIsSound(c, e, seen, next);
      EveryStepRunsWhatItPrepares(c, e, seen, next);
      EveryRunRunsWhatItPrepares(Next(c, e, seen, next), run[1..]);
    }
  }
}
