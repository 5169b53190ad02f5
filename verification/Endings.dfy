/**
 What a stopped action leaves (crates/agent-session/src/core.rs): the message it takes back or writes, the marker
 of a stop, and the record of an interruption.
 */
module Endings {
  import opened Wrappers
  import opened Blocks
  import opened Inputs
  import opened SessionCores
  import opened Conservation
  import opened SessionRuns
  import opened Boundaries

  /** The blocks are there with their running calls completed, and `after` goes on behind them. */
  ghost predicate StaysSettled(blocks: seq<Block>, after: seq<Block>) {
    |blocks| <= |after| && forall k :: 0 <= k < |blocks| ==> after[k] == SessionCores.Settled(blocks[k])
  }

  lemma {:induction false} NothingToSettle(blocks: seq<Block>)
    requires !AnyExecuting(blocks)
    ensures AllSettled(blocks) == blocks
  {
  }

  /** The action with its calls completed: the transcript is settled either way. */
  lemma {:induction false} AbortingSettles(c: Core)
    ensures CallsAborted(c).transcript == AllSettled(c.transcript)
  {
    if !AnyExecuting(c.transcript) { NothingToSettle(c.transcript); }
  }

  /** Only inputs but the steers stand behind the first `from` blocks. */
  ghost predicate OnlyInputsBehind(blocks: seq<Block>, from: nat) {
    forall k :: from <= k < |blocks| ==> blocks[k].body.AgentMessage? || blocks[k].body.Wakeup?
  }

  lemma {:induction false} AStopWritesTheInputs(c: Core, turn: TurnId, seen: set<nat>, next: nat)
    ensures var after := InputsWritten(c, turn, AllButSteers, seen, next).transcript;
            c.transcript <= after && OnlyInputsBehind(after, |c.transcript|)
  {
    var taken := Taken(Unseen(c.inputs.entries, seen), AllButSteers);
    var after := InputsWritten(c, turn, AllButSteers, seen, next).transcript;
    var at := InputsAreWrittenInOrder(c, turn, AllButSteers, seen, next);
    assert forall k :: |c.transcript| <= k < |after| ==> after[k] == after[|c.transcript|..][k - |c.transcript|];
  }

  /** What a stop leaves behind the first `from` blocks, before its marker. */
  ghost predicate WritesBehind(before: seq<Block>, written: seq<Block>, after: seq<Block>, marked: bool) {
    && before <= written && |after| == |written| + (if marked then 1 else 0) && StaysSettled(written, after)
    && (marked ==> after[|after| - 1].body == Abort(false))
  }

  lemma {:induction false} AMarkFollows(c: Core, reason: Reason, givingBack: bool, began: bool, next: nat)
    requires !reason.Shutdown?
    ensures WritesBehind(c.transcript, c.transcript, Marked(CallsAborted(c), reason, givingBack, began, next).transcript,
                         began && !(givingBack && reason.Stop?))
  {
    AbortingSettles(c);
  }

  // The user's Stop and a hold.

  /** The transcript before a stop writes the inputs: without the message that is given back, or with the one that was
      not written yet. */
  function BeforeTheInputs(c: Core, reason: Reason, next: nat): seq<Block>
    requires c.activity.Running? && (c.activity.run.unwritten ==> c.activity.run.kind.Send?)
  {
    var given := if reason.Stop? && c.activity.run.givingBack then GivenBack(c) else c;
    UnwrittenSettled(given, reason, next).transcript
  }

  lemma {:induction false} AStopLeaves(c: Core, reason: Reason, seen: set<nat>, next: nat)
    requires c.activity.Running? && (c.activity.run.unwritten ==> c.activity.run.kind.Send?) && !reason.Shutdown?
    ensures var written := StopWritten(c, reason, seen, next);
            && OnlyInputsBehind(written.transcript, |BeforeTheInputs(c, reason, next)|)
            && WritesBehind(BeforeTheInputs(c, reason, next), written.transcript, StopRecorded(c, reason, seen, next).transcript,
                            written.activity.run.began && !(c.activity.run.givingBack && reason.Stop?))
  {
    var given := if reason.Stop? && c.activity.run.givingBack then GivenBack(c) else c;
    var settled := UnwrittenSettled(given, reason, next);
    AStopWritesTheInputs(settled, settled.activity.run.turn, seen, next);
    var written := StopWritten(c, reason, seen, next);
    AMarkFollows(written, reason, c.activity.run.givingBack, written.activity.run.began, next);
  }

  /** The action is asked to stop, for that reason, and nothing else changes. */
  ghost predicate IsAskedToStop(c: Core, reason: Reason, after: Core) {
    && c.activity.Running? && after.activity.Running? && after.activity.run.cancel == Some(reason)
    && after.activity.run.(cancel := None, givingBack := false) == c.activity.run.(cancel := None, givingBack := false)
    && after.transcript == c.transcript && after.inputs == c.inputs
  }

  lemma {:induction false} ADisposeReaches(c: Core)
    requires !c.disposing
    ensures var after := DisposeBegun(c);
            && after.disposing && (c.activity.Idle? ==> after.activity == Closed(false)) && after.pending == Sends(c.pending)
            && (c.activity.Running? ==>
                  if c.activity.run.cancel.None? then IsAskedToStop(c, Shutdown, after) else after.activity == c.activity)
  {
  }

  lemma {:induction false} AnAbortReaches(c: Core, writing: bool, ofSchedule: bool)
    requires !c.disposing && c.activity.Running?
    ensures var (aborted, held) := (Aborted(c, writing, ofSchedule), StoppedForHold(c));
            if c.activity.run.cancel.None? then
              && IsAskedToStop(c, Stop, aborted) && aborted.pending == c.pending
              && IsAskedToStop(c, Hold, held) && held.pending == c.pending
            else aborted.activity == c.activity && held == c
  {
  }

  /** The user's Stop, a hold and a dispose reach the running action, unless one of them has reached it: the first
      reason stays. A dispose also ends an idle session, and keeps only messages queued. */
  lemma {:induction false} AStopReachesWhatRuns(c: Core, e: Event, seen: set<nat>, next: nat)
    requires Sound(c) && !c.disposing && (e.Aborts? || e.StopsForHold? || e.Disposes?)
    ensures var after := Next(c, e, seen, next);
            var reason := if e.Aborts? then Stop else if e.StopsForHold? then Hold else Shutdown;
            && (c.activity.Running? ==>
                  if c.activity.run.cancel.None? then IsAskedToStop(c, reason, after) else after.activity == c.activity)
            && (c.activity.Running? && c.activity.run.cancel.None? && !e.Disposes? ==> after.pending == c.pending)
            && (e.StopsForHold? && !c.activity.Running? ==> after == c)
            && (e.Disposes? ==>
                  after.disposing && (c.activity.Idle? ==> after.activity == Closed(false)) && after.pending == Sends(c.pending))
  {
    ADisposeReaches(c);
    if c.activity.Running? && e.Aborts? { AnAbortReaches(c, e.writing, e.ofSchedule); }
    if c.activity.Running? { AnAbortReaches(c, false, false); }
  }

  /** The last message or steer of the transcript, which is of the running turn. */
  ghost predicate IsTheTurnsLast(c: Core, at: nat)
    requires c.activity.Running?
  {
    && at < |c.transcript|
    && (c.transcript[at].body == User(c.activity.run.turn) || c.transcript[at].body == Body.Steer(c.activity.run.turn))
    && forall k :: at < k < |c.transcript| ==> !c.transcript[k].body.User? && !c.transcript[k].body.Steer?
  }

  lemma {:induction false} TheLastEditableIsTheLast(blocks: seq<Block>, at: nat)
    requires at < |blocks| && (blocks[at].body.User? || blocks[at].body.Steer?)
    requires forall k :: at < k < |blocks| ==> !blocks[k].body.User? && !blocks[k].body.Steer?
    ensures LastEditable(blocks) == Some(blocks[at])
  {
    if at < |blocks| - 1 {
      assert forall k :: 0 <= k < |blocks| - 1 ==> blocks[..|blocks| - 1][k] == blocks[k];
      TheLastEditableIsTheLast(blocks[..|blocks| - 1], at);
    }
  }

  lemma {:induction false} ALastEditableIsThere(blocks: seq<Block>) returns (at: nat)
    requires LastEditable(blocks).Some?
    ensures at < |blocks| && blocks[at] == LastEditable(blocks).value && (blocks[at].body.User? || blocks[at].body.Steer?)
    ensures forall k :: at < k < |blocks| ==> !blocks[k].body.User? && !blocks[k].body.Steer?
  {
    at := |blocks| - 1;
    if !blocks[at].body.User? && !blocks[at].body.Steer? {
      at := ALastEditableIsThere(blocks[..|blocks| - 1]);
      assert forall k :: 0 <= k < |blocks| - 1 ==> blocks[..|blocks| - 1][k] == blocks[k];
    }
  }

  /** An edit may stop the running turn: nothing asked it to stop, nothing waits behind it but reports that open no turn,
      no other edit is prepared, and the message to edit is its last. */
  ghost predicate MayStopForEdit(c: Core, target: BlockId) {
    && c.activity.Running? && c.activity.run.cancel.None? && c.pending == [] && !c.preparing
    && (forall k :: 0 <= k < |c.inputs.entries| ==> c.inputs.entries[k].Report? && !c.inputs.entries[k].opensTurn)
    && exists at: nat :: IsTheTurnsLast(c, at) && c.transcript[at].id == target
  }

  /** An edit of a message stops the turn exactly then, and gives nothing back; else it changes nothing. */
  lemma {:induction false} AnEditStopsTheTurnExactlyWhen(c: Core, target: BlockId, seen: set<nat>, next: nat)
    requires Sound(c)
    ensures var after := Next(c, StopsForEdit(target), seen, next);
            if MayStopForEdit(c, target) then IsAskedToStop(c, Stop, after) && after.activity.run.givingBack == c.activity.run.givingBack
            else after == c
  {
    TheRunningMessageIsTheTurnsLast(c, target);
  }

  lemma {:induction false} TheRunningMessageIsTheTurnsLast(c: Core, target: BlockId)
    ensures RunningMessage(c) == Some(target) <==> MayStopForEdit(c, target)
  {
    if MayStopForEdit(c, target) {
      var at: nat :| IsTheTurnsLast(c, at) && c.transcript[at].id == target;
      TheLastEditableIsTheLast(c.transcript, at);
    }
    if RunningMessage(c) == Some(target) {
      var at := ALastEditableIsThere(c.transcript);
      assert IsTheTurnsLast(c, at);
    }
  }

  /** The running turn's message is at `at`, and nothing but context stands behind it. */
  ghost predicate HasOnlyContext(c: Core, at: nat)
    requires c.activity.Running?
  {
    && at < |c.transcript| && c.transcript[at].body == User(c.activity.run.turn)
    && forall k :: at < k < |c.transcript| ==> c.transcript[k].body.Context?
  }

  /** A Stop gives the message back: the user sent it, no steer waits, no call is being written, and the turn wrote
      nothing yet, but maybe the message and context. */
  ghost predicate GoesBack(c: Core, writing: bool, ofSchedule: bool)
    requires c.activity.Running?
  {
    && c.activity.run.kind.Send? && !writing && (forall k :: 0 <= k < |c.inputs.entries| ==> !c.inputs.entries[k].Steer?)
    && if c.activity.run.unwritten then !c.activity.run.kind.scheduled
       else !ofSchedule && exists at: nat :: HasOnlyContext(c, at)
  }

  lemma {:induction false} TheMessageIsAtOnce(c: Core, at: nat)
    requires c.activity.Running? && HasOnlyContext(c, at)
    ensures UserBlockAt(c.transcript, c.activity.run.turn) == Some(at)
  {
    TheLastUserBlock(c.transcript, c.activity.run.turn, at);
  }

  lemma {:induction false} TheLastUserBlock(blocks: seq<Block>, turn: TurnId, at: nat)
    requires at < |blocks| && blocks[at].body == User(turn) && forall k :: at < k < |blocks| ==>
              blocks[k].body != User(turn)
    ensures UserBlockAt(blocks, turn) == Some(at)
  {
    if at < |blocks| - 1 {
      assert forall k :: 0 <= k < |blocks| - 1 ==> blocks[..|blocks| - 1][k] == blocks[k];
      TheLastUserBlock(blocks[..|blocks| - 1], turn, at);
    }
  }

  lemma {:induction false} AMessageGoesBackExactlyWhen(c: Core, writing: bool, ofSchedule: bool)
    requires c.activity.Running? && c.activity.run.cancel.None?
    ensures WouldGiveBack(c, writing, ofSchedule) <==> GoesBack(c, writing, ofSchedule)
  {
    if at: nat :| HasOnlyContext(c, at) { TheMessageIsAtOnce(c, at); }
    var at := UserBlockAt(c.transcript, c.activity.run.turn);
    assert at.Some? && (forall k :: at.value < k < |c.transcript| ==> c.transcript[k].body.Context?) ==> HasOnlyContext(c, at.value);
  }

  /** The running action with the user's Stop. */
  function Stopping(c: Core, givingBack: bool): Core
    requires c.activity.Running?
  {
    c.(activity := Running(c.activity.run.(cancel := Some(Stop), givingBack := givingBack)))
  }

  lemma {:induction false} AnAbortStops(c: Core, writing: bool, ofSchedule: bool)
    requires c.activity.Running? && !c.disposing && c.activity.run.cancel.None?
    ensures Aborted(c, writing, ofSchedule)
            == if GoesBack(c, writing, ofSchedule) then Stopping(c, true) else Stopping(c, false)
  {
    AMessageGoesBackExactlyWhen(c, writing, ofSchedule);
  }

  /** A Stop that is recorded before anything more is written. */
  function Stopped(c: Core, writing: bool, ofSchedule: bool, seen: set<nat>, next: nat): Core
    requires Works(c) && RunIsSound(c) && !c.disposing && c.activity.run.cancel.None?
  {
    Concluded(StopRecorded(Aborted(c, writing, ofSchedule), Stop, seen, next))
  }

  lemma {:induction false} ARecordedStopIs(c: Core, seen: set<nat>, next: nat)
    requires Sound(c) && Enabled(c, RecordsStop) && c.activity.run.cancel == Some(Stop)
    ensures Next(c, RecordsStop, seen, next) == Concluded(StopRecorded(c, Stop, seen, next))
  {
  }

  lemma {:induction false} AnAbortIsSound(c: Core, writing: bool, ofSchedule: bool, seen: set<nat>, next: nat)
    requires Sound(c) && Works(c) && !c.disposing && c.activity.run.cancel.None?
    ensures var stopping := Next(c, Aborts(writing, ofSchedule), seen, next);
            stopping == Aborted(c, writing, ofSchedule) && Sound(stopping) && Enabled(stopping, RecordsStop)
            && stopping.activity.run.cancel == Some(Stop)
  {
    AbortingIsSound(c, writing, ofSchedule);
  }

  /** These are the two steps of a run. */
  lemma {:induction false} AStopIsTwoSteps(c: Core, writing: bool, ofSchedule: bool, seen: set<nat>, next: nat)
    requires Sound(c) && Works(c) && !c.disposing && c.activity.run.cancel.None?
    ensures var stopping := Next(c, Aborts(writing, ofSchedule), seen, next);
            && Sound(stopping) && Enabled(stopping, RecordsStop)
            && Next(stopping, RecordsStop, seen, next) == Stopped(c, writing, ofSchedule, seen, next)
  {
    AnAbortIsSound(c, writing, ofSchedule, seen, next);
    ARecordedStopIs(Next(c, Aborts(writing, ofSchedule), seen, next), seen, next);
  }

  /** Given back, the message is gone with the context told after it, and only inputs follow what was before it: no
      other block is taken back, and no marker is written. */
  lemma {:induction false} AStopGivesBackOnlyTheMessage(
      c: Core, writing: bool, ofSchedule: bool, seen: set<nat>, next: nat) returns (cut: nat)
    requires Sound(c) && Works(c) && !c.disposing && c.activity.run.cancel.None? && GoesBack(c, writing, ofSchedule)
    ensures if c.activity.run.unwritten then cut == |c.transcript| else HasOnlyContext(c, cut)
    ensures var after := Stopped(c, writing, ofSchedule, seen, next).transcript;
            StaysSettled(c.transcript[..cut], after) && OnlyInputsBehind(after, cut)
  {
    var stopping := Stopping(c, true);
    AnAbortStops(c, writing, ofSchedule);
    cut := |c.transcript|;
    if !c.activity.run.unwritten {
      cut :| HasOnlyContext(c, cut);
      TheMessageIsAtOnce(c, cut);
    }
    assert BeforeTheInputs(stopping, Stop, next) == c.transcript[..cut];
    AStopLeaves(stopping, Stop, seen, next);
    InputsStaySettled(c.transcript[..cut], StopWritten(stopping, Stop, seen, next).transcript,
                      StopRecorded(stopping, Stop, seen, next).transcript);
  }

  lemma {:induction false} InputsStaySettled(before: seq<Block>, written: seq<Block>, after: seq<Block>)
    requires before <= written && |after| == |written| && StaysSettled(written, after) && OnlyInputsBehind(written, |before|)
    ensures StaysSettled(before, after) && OnlyInputsBehind(after, |before|)
  {
  }

  /** What else a Stop or a hold leaves: every block stays, the message that was not written is written for a Stop,
      inputs follow, and then the marker; but an action that wrote nothing, inputs counted, began no turn and gets
      none. */
  ghost predicate IsMarked(c: Core, reason: Reason, after: seq<Block>)
    requires c.activity.Running? && (c.activity.run.unwritten ==> c.activity.run.kind.Send?)
  {
    var message := if c.activity.run.unwritten && reason.Stop? then 1 else 0;
    && StaysSettled(c.transcript, after)
    && (message == 1 ==> |after| > |c.transcript| && after[|c.transcript|].body == User(c.activity.run.turn)
                         && after[|c.transcript|].content == c.activity.run.kind.content)
    && (if c.activity.run.began || |after| > |c.transcript|
        then after != [] && |after| > |c.transcript| + message && after[|after| - 1].body == Abort(false)
             && OnlyInputsBehind(after[..|after| - 1], |c.transcript| + message)
        else after == c.transcript)
  }

  lemma {:induction false} SettlingTheMessage(c: Core, reason: Reason, next: nat)
    requires c.activity.Running? && (c.activity.run.unwritten ==> c.activity.run.kind.Send?) && !reason.Shutdown?
    requires !(c.activity.run.givingBack && reason.Stop?)
    ensures var before := BeforeTheInputs(c, reason, next);
            && c.transcript <= before
            && |before| == |c.transcript| + (if c.activity.run.unwritten && reason.Stop? then 1 else 0)
            && (c.activity.run.unwritten && reason.Stop? ==>
                  before[|c.transcript|].body == User(c.activity.run.turn)
                  && before[|c.transcript|].content == c.activity.run.kind.content)
  {
  }

  lemma {:induction false} AStopBeginsATurnExactlyWhen(c: Core, reason: Reason, seen: set<nat>, next: nat)
    requires c.activity.Running? && (c.activity.run.unwritten ==> c.activity.run.kind.Send?) && !reason.Shutdown?
    requires !(c.activity.run.givingBack && reason.Stop?)
    ensures var written := StopWritten(c, reason, seen, next);
            written.activity.run.began <==> c.activity.run.began || |written.transcript| > |c.transcript|
  {
    var settled := UnwrittenSettled(c, reason, next);
    WritingInputsBegins(settled, settled.activity.run.turn, seen, next);
    SettlingTheMessage(c, reason, next);
    AStopWritesTheInputs(settled, settled.activity.run.turn, seen, next);
  }

  lemma {:induction false} WritingInputsBegins(c: Core, turn: TurnId, seen: set<nat>, next: nat)
    requires c.activity.Running?
    ensures var after := InputsWritten(c, turn, AllButSteers, seen, next);
            after.activity.run.began <==> c.activity.run.began || |after.transcript| > |c.transcript|
  {
    var taken := Taken(Unseen(c.inputs.entries, seen), AllButSteers);
    if taken != [] {
      var at := InputsAreWrittenInOrder(c, turn, AllButSteers, seen, next);
      SomethingIsWritten(taken, at, InputsWritten(c, turn, AllButSteers, seen, next).transcript[|c.transcript|..], turn, next);
    }
  }

  /** A Stop that gives nothing back, and a hold, leave the transcript so. */
  lemma {:induction false} AStopIsMarked(c: Core, seen: set<nat>, next: nat)
    requires Sound(c) && Enabled(c, RecordsStop) && !(c.activity.run.givingBack && c.activity.run.cancel == Some(Stop))
    ensures IsMarked(c, c.activity.run.cancel.value, Next(c, RecordsStop, seen, next).transcript)
  {
    ARecordedStopIsMarked(c, c.activity.run.cancel.value, seen, next);
  }

  lemma {:induction false} ARecordedStopIsMarked(c: Core, reason: Reason, seen: set<nat>, next: nat)
    requires NoCallDangles(c) && c.activity.Running? && (c.activity.run.unwritten ==> c.activity.run.kind.Send?)
    requires !reason.Shutdown? && !(c.activity.run.givingBack && reason.Stop?)
    ensures IsMarked(c, reason, StopRecorded(c, reason, seen, next).transcript)
  {
    var written := StopWritten(c, reason, seen, next);
    SettlingTheMessage(c, reason, next);
    AStopLeaves(c, reason, seen, next);
    AStopBeginsATurnExactlyWhen(c, reason, seen, next);
    MarkedBehind(c, reason, BeforeTheInputs(c, reason, next), written.transcript,
                 StopRecorded(c, reason, seen, next).transcript, written.activity.run.began);
  }

  lemma {:induction false} MarkedBehind(
      c: Core, reason: Reason, before: seq<Block>, written: seq<Block>, after: seq<Block>, marked: bool)
    requires NoCallDangles(c) && c.activity.Running? && (c.activity.run.unwritten ==> c.activity.run.kind.Send?)
    requires c.transcript <= before && |before| == |c.transcript| + (if c.activity.run.unwritten && reason.Stop? then 1 else 0)
    requires c.activity.run.unwritten && reason.Stop? ==>
               before[|c.transcript|].body == User(c.activity.run.turn)
               && before[|c.transcript|].content == c.activity.run.kind.content
    requires OnlyInputsBehind(written, |before|) && WritesBehind(before, written, after, marked)
    requires marked <==> c.activity.run.began || |written| > |c.transcript|
    ensures IsMarked(c, reason, after)
  {
    assert forall k :: 0 <= k < |c.transcript| ==> written[k] == c.transcript[k];
    if !marked {
      NothingToSettle(c.transcript);
      assert after == c.transcript;
    }
  }

  // A shutdown.

  lemma {:induction false} AMarkInterrupts(c: Core, givingBack: bool, began: bool, next: nat)
    ensures var after := Marked(CallsAborted(c), Shutdown, givingBack, began, next);
            && StaysSettled(c.transcript, after.transcript) && |after.transcript| <= |c.transcript| + 1
            && EndsWithInterruption(after.transcript) && after.pending == c.pending && after.inputs == c.inputs
  {
    AbortingSettles(c);
  }

  lemma {:induction false} AnInterruptionIsRecorded(c: Core, seen: set<nat>, next: nat)
    requires c.activity.Running? && !c.activity.run.unwritten
    ensures var after := StopRecorded(c, Shutdown, seen, next);
            && StaysSettled(c.transcript, after.transcript) && |after.transcript| <= |c.transcript| + 1
            && EndsWithInterruption(after.transcript) && after.pending == c.pending && after.inputs == c.inputs
  {
    assert StopWritten(c, Shutdown, seen, next) == c;
    AMarkInterrupts(c, c.activity.run.givingBack, c.activity.run.began, next);
  }

  lemma {:induction false} AShutdownInterrupts(c: Core, seen: set<nat>, next: nat)
    requires c.activity.Running? && !c.activity.run.unwritten && c.activity.run.began
    ensures var after := ShutDown(c, seen, next);
            && after.activity == Closed(true)
            && StaysSettled(c.transcript, after.transcript) && |after.transcript| <= |c.transcript| + 1
            && EndsWithInterruption(after.transcript) && after.pending == SteersAsMessages(c.inputs.entries) + c.pending
  {
    var rejected := c.(preparing := false);
    var stopped := StopRecorded(rejected, Shutdown, seen, next);
    AnInterruptionIsRecorded(rejected, seen, next);
    QueuedSteersKeepTheirOrder(stopped, 0);
    QueuingSteersKeepsMessages(stopped, 0, Pattern(0, None));
    assert stopped.pending[..0] == [] && stopped.pending[0..] == c.pending;
  }

  lemma {:induction false} AShutdownPutsBack(c: Core, seen: set<nat>, next: nat)
    requires c.activity.Running? && !c.activity.run.began && (c.activity.run.unwritten ==> c.activity.run.kind.Send?)
    ensures var (run, after) := (c.activity.run, ShutDown(c, seen, next));
            && after.activity == Closed(false) && after.transcript == c.transcript
            && after.pending == (if run.kind.Send? then [Pending(run.kind, run.turn)] else [])
                                + SteersAsMessages(c.inputs.entries) + c.pending
  {
    var run := c.activity.run;
    var message := if run.kind.Send? then [Pending(run.kind, run.turn)] else [];
    var waiting := c.(preparing := false, pending := message + c.pending);
    assert !run.kind.Send? ==> message + c.pending == c.pending;
    QueuedSteersKeepTheirOrder(waiting, |message|);
    QueuingSteersKeepsMessages(waiting, |message|, Pattern(0, None));
    assert waiting.pending[..|message|] == message && waiting.pending[|message|..] == c.pending;
  }

  /** An action that began is recorded as interrupted, once; one that did not leaves the transcript as it was, and its
      message goes back to the front of the queue. The waiting steers follow as messages. */
  lemma {:induction false} AShutdownRecordsTheInterruption(c: Core, seen: set<nat>, next: nat)
    requires Sound(c) && Works(c) && c.activity.run.cancel == Some(Shutdown)
    ensures var (run, after) := (c.activity.run, Next(c, ShutsDown, seen, next));
            var message := if !run.began && run.kind.Send? then [Pending(run.kind, run.turn)] else [];
            && after.activity == Closed(run.began)
            && (if run.began then
                  && StaysSettled(c.transcript, after.transcript) && |after.transcript| <= |c.transcript| + 1
                  && EndsWithInterruption(after.transcript)
                else after.transcript == c.transcript)
            && after.pending == message + SteersAsMessages(c.inputs.entries) + c.pending
  {
    if c.activity.run.began {
      AShutdownInterrupts(c, seen, next);
      assert [] + SteersAsMessages(c.inputs.entries) == SteersAsMessages(c.inputs.entries);
    } else {
      AShutdownPutsBack(c, seen, next);
    }
  }
}
