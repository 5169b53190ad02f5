/**
 The session's synchronous state machine (crates/agent-session/src/core.rs): what it admits, what runs
 next, what a boundary writes, and how an action ends.
 */
module SessionCores {
  import opened Wrappers
  import opened Blocks
  import opened Inputs

  datatype ActionKind =
    | Send(content: nat, scheduled: bool)
    | Continue
    | Retry
    | Resumption
    | Edit
    | Switch
    | Compact(idle: bool)

  datatype Pending = Pending(kind: ActionKind, turn: TurnId)

  datatype Reason = Stop | Hold | Shutdown

  /** The running action. `taken`: the worker has it. `began`: it wrote into the transcript.
      `unwritten`: its message is not in the transcript yet. `concluded`: it recorded how it ended. */
  datatype Run = Run(kind: ActionKind, turn: TurnId, cancel: Option<Reason>, taken: bool, began: bool,
                     unwritten: bool, givingBack: bool, concluded: bool)

  datatype Activity = Idle | Running(run: Run) | Finishing | Closed(interrupted: bool)

  /** `recovers`: a root, whose user recovers its failed turns. `preparing`: an edit is being prepared. */
  datatype Core = Core(inputs: Queue, pending: seq<Pending>, activity: Activity, held: bool, disposing: bool,
                       preparing: bool, transcript: seq<Block>, passedFailure: Option<BlockId>, recovers: bool)

  // Readings of the transcript.

  predicate IsRecord(block: Block) {
    match block.body
    case CompactionBoundary | CompactionMarker | AgentMessage(_, _) => false
    case Error(outsideTurn, _) => !outsideTurn
    case Wakeup(_, newTurn, _) => newTurn
    case _ => true
  }

  /** The error block that left the last turn unfinished. */
  function TurnFailure(blocks: seq<Block>): Option<Block> {
    if blocks == [] then None
    else
      var last := blocks[|blocks| - 1];
      if IsRecord(last) then (if last.body.Error? then Some(last) else None)
      else TurnFailure(blocks[..|blocks| - 1])
  }

  function TurnOf(block: Block): Option<TurnId> {
    match block.body
    case User(turn) => Some(turn)
    case Context(turn) => Some(turn)
    case Wakeup(turn, _, _) => Some(turn)
    case Steer(turn) => Some(turn)
    case AgentMessage(turn, _) => Some(turn)
    case Resume(turn) => Some(turn)
    case _ => None
  }

  function LastTurn(blocks: seq<Block>): Option<TurnId> {
    if blocks == [] then None
    else
      var turn := TurnOf(blocks[|blocks| - 1]);
      if turn.Some? then turn else LastTurn(blocks[..|blocks| - 1])
  }

  predicate HasUserTurn(blocks: seq<Block>, turn: TurnId) {
    exists k :: 0 <= k < |blocks| && blocks[k].body == User(turn)
  }

  predicate HoldsBlock(blocks: seq<Block>, id: BlockId) {
    exists k :: 0 <= k < |blocks| && blocks[k].id == id
  }

  predicate IsExecuting(block: Block) {
    block.body.ToolCall? && block.body.executing
  }

  predicate AnyExecuting(blocks: seq<Block>) {
    exists k :: 0 <= k < |blocks| && IsExecuting(blocks[k])
  }

  function Settled(block: Block): Block {
    if IsExecuting(block) then block.(body := block.body.(executing := false)) else block
  }

  /** The blocks with every running call completed. */
  function AllSettled(blocks: seq<Block>): (r: seq<Block>)
    ensures |r| == |blocks| && forall k :: 0 <= k < |r| ==> r[k] == Settled(blocks[k])
    ensures !AnyExecuting(r)
  {
    seq(|blocks|, k requires 0 <= k < |blocks| => Settled(blocks[k]))
  }

  // What starts next.

  predicate FailedTurnHolds(c: Core) {
    c.recovers && TurnFailure(c.transcript).Some? && c.passedFailure != Some(TurnFailure(c.transcript).value.id)
  }

  predicate WantsContinuation(c: Core) {
    !c.held && !FailedTurnHolds(c) && (HasReport(c.inputs.entries) || HasAgentInput(c.inputs.entries))
  }

  function Started(c: Core, kind: ActionKind, turn: TurnId): Core {
    c.(held := false, activity := Running(Run(kind, turn, None, false, false, kind.Send?, false, false)))
  }

  function AsMessage(steer: Input): Pending
    requires steer.Steer?
  {
    Pending(Send(steer.content, false), steer.id)
  }

  /** The steers that wait, as messages after the queue's first `ahead` entries, in arrival order. */
  function SteersQueued(c: Core, ahead: nat): Core
    requires ahead <= |c.pending|
    decreases |c.inputs.entries|
  {
    var at := SteerAt(c.inputs.entries, None);
    if at == |c.inputs.entries| then c
    else
      var message := AsMessage(c.inputs.entries[at]);
      SteersQueued(c.(inputs := Happened(c.inputs, TakesFirstSteer),
                      pending := c.pending[..ahead] + [message] + c.pending[ahead..]),
                   ahead + 1)
  }

  /** What runs next: a waiting steer as a message, unless the queue begins with a message; the queue's
      first action; a continuation, when input wants one. With none of them the session settles, idle, or
      closed when it is being disposed. */
  function StartNext(c: Core, seen: set<nat>, next: nat): Core {
    if c.disposing then SteersQueued(c, 0).(activity := Closed(false))
    else
      var messageNext := c.pending != [] && c.pending[0].kind.Send?;
      var at := SteerAt(c.inputs.entries, None);
      if !messageNext && at < |c.inputs.entries| then
        var message := AsMessage(c.inputs.entries[at]);
        Started(c.(inputs := Happened(c.inputs, TakesFirstSteer)), message.kind, message.turn)
      else if c.pending != [] then Started(c.(pending := c.pending[1..]), c.pending[0].kind, c.pending[0].turn)
      else if WantsContinuation(c) then Started(c, Continue, next)
      else WrittenIntoFailedTurn(c.(activity := Idle), seen, next)
  }

  /** The waiting input is written into the failed turn that holds it, when that alone does. */
  function WrittenIntoFailedTurn(c: Core, seen: set<nat>, next: nat): Core {
    if c.held || !FailedTurnHolds(c) || LastTurn(c.transcript).None? then c
    else InputsWritten(c, LastTurn(c.transcript).value, Everything, seen, next)
  }

  function Pushed(c: Core, kind: ActionKind, turn: TurnId, seen: set<nat>, next: nat): Core {
    var pushed := c.(pending := c.pending + [Pending(kind, turn)]);
    if c.activity.Idle? then StartNext(pushed, seen, next) else pushed
  }

  function Woken(c: Core, seen: set<nat>, next: nat): Core {
    if c.activity.Idle? && c.pending == [] then StartNext(c, seen, next) else c
  }

  // What a boundary writes.

  function Events(reports: seq<Input>): seq<ReportEvent>
    requires forall k :: 0 <= k < |reports| ==> reports[k].Report?
  {
    seq(|reports|, k requires 0 <= k < |reports| => reports[k].event)
  }

  /** The blocks of inputs, the reports as one where the first of them arrived. */
  function BlocksOf(inputs: seq<Input>, turn: TurnId, reports: seq<Input>, next: BlockId): seq<Block>
    requires forall k :: 0 <= k < |reports| ==> reports[k].Report?
  {
    if inputs == [] then []
    else
      match inputs[0]
      case Steer(id, content) => [Block(id, Body.Steer(turn), None, content)] + BlocksOf(inputs[1..], turn, reports, next)
      case Agent(id, content) =>
        [Block(id, AgentMessage(turn, Message), None, content)] + BlocksOf(inputs[1..], turn, reports, next)
      case Report(_, _, _) =>
        if reports == [] then BlocksOf(inputs[1..], turn, [], next)
        else [Block(next, Wakeup(turn, false, Events(reports)), None, 0)] + BlocksOf(inputs[1..], turn, [], next)
  }

  /** The action wrote into the transcript. */
  function Wrote(c: Core, transcript: seq<Block>): Core {
    c.(transcript := transcript,
       activity := if c.activity.Running? then Running(c.activity.run.(began := true)) else c.activity)
  }

  function InputsWritten(c: Core, turn: TurnId, take: Take, seen: set<nat>, next: nat): (r: Core)
    ensures r.activity.Running? == c.activity.Running?
  {
    var unseen := WithoutSeen(c.inputs, seen);
    var taken := Taken(unseen.entries, take);
    var left := c.(inputs := Happened(unseen, Takes(take)));
    if taken == [] then left
    else Wrote(left, c.transcript + BlocksOf(taken, turn, Reports(taken), next))
  }

  // Admissions.

  predicate Refuses(c: Core) {
    c.disposing || c.preparing
  }

  /** A message id the session has a turn for: one that runs, waits or is written. */
  predicate KnowsTurn(c: Core, id: TurnId) {
    || (c.activity.Running? && c.activity.run.turn == id)
    || (exists k :: 0 <= k < |c.pending| && c.pending[k].kind.Send? && c.pending[k].turn == id)
    || HasUserTurn(c.transcript, id)
  }

  predicate KnowsSteer(c: Core, id: MessageId) {
    SteerAt(c.inputs.entries, Some(id)) < |c.inputs.entries| || HoldsBlock(c.transcript, id) || KnowsTurn(c, id)
  }

  function MessageAdmitted(c: Core, id: MessageId, content: nat, scheduled: bool, seen: set<nat>, next: nat): Core {
    if Refuses(c) || KnowsTurn(c, id) then c else Pushed(c, Send(content, scheduled), id, seen, next)
  }

  function ActionAdmitted(c: Core, kind: ActionKind, turn: TurnId, seen: set<nat>, next: nat): Core {
    if Refuses(c) then c else Pushed(c, kind, turn, seen, next)
  }

  function IdleCompactionAdmitted(c: Core, turn: TurnId, seen: set<nat>, next: nat): Core {
    if c.activity.Idle? && c.pending == [] && !WantsContinuation(c) && !Refuses(c)
    then Pushed(c, Compact(true), turn, seen, next)
    else c
  }

  function Steered(c: Core, id: MessageId, content: nat, seen: set<nat>, next: nat): Core {
    if KnowsSteer(c, id) || c.disposing || c.activity.Closed? then c
    else if c.activity.Idle? then Pushed(c, Send(content, false), id, seen, next)
    else c.(inputs := Added(c.inputs, Input.Steer(id, content)))
  }

  /** The first agent message among the inputs with that id. */
  function WaitingAgentMessage(entries: seq<Input>, id: MessageId): (content: Option<nat>)
    ensures content.Some? ==> exists k :: 0 <= k < |entries| && entries[k] == Agent(id, content.value)
    ensures content.None? ==> forall k :: 0 <= k < |entries| && entries[k].Agent? ==> entries[k].id != id
  {
    if entries == [] then None
    else if entries[0].Agent? && entries[0].id == id then Some(entries[0].content)
    else
      var rest := WaitingAgentMessage(entries[1..], id);
      assert forall k :: 0 <= k < |entries| - 1 ==> entries[1..][k] == entries[k + 1];
      rest
  }

  /** The last block with that id. */
  function BlockOf(blocks: seq<Block>, id: BlockId): (block: Option<Block>)
    ensures block.Some? ==> block.value in blocks && block.value.id == id
    ensures block.None? <==> !HoldsBlock(blocks, id)
  {
    if blocks == [] then None
    else if blocks[|blocks| - 1].id == id then Some(blocks[|blocks| - 1])
    else
      assert HoldsBlock(blocks, id) ==> HoldsBlock(blocks[..|blocks| - 1], id) by {
        if k :| 0 <= k < |blocks| && blocks[k].id == id { assert blocks[..|blocks| - 1][k].id == id; }
      }
      BlockOf(blocks[..|blocks| - 1], id)
  }

  /** The content of the agent's message of that id, which waits or was written. */
  function AgentMessageOf(c: Core, id: MessageId): Option<nat> {
    var waiting := WaitingAgentMessage(c.inputs.entries, id);
    var written := BlockOf(c.transcript, id);
    if waiting.Some? then waiting
    else if written.Some? && written.value.body.AgentMessage? then Some(written.value.content)
    else None
  }

  predicate ContainsInput(entries: seq<Input>, id: MessageId) {
    exists k :: 0 <= k < |entries| && !entries[k].Report? && entries[k].id == id
  }

  function AgentMessageAdmitted(
      c: Core, id: MessageId, content: nat, fromProduct: bool, seen: set<nat>, next: nat): Core {
    var existing := AgentMessageOf(c, id);
    if Refuses(c) then c
    else if existing.Some? then (if existing == Some(content) then Woken(c, seen, next) else c)
    else if HoldsBlock(c.transcript, id) || ContainsInput(c.inputs.entries, id) then c
    else
      var added := c.(inputs := Added(c.inputs, Agent(id, content)));
      if !fromProduct then Woken(added, seen, next)
      else if added.activity.Idle? && added.pending == [] then Started(added, Continue, next)
      else added
  }

  function ReportAdmitted(c: Core, report: Input, seen: set<nat>, next: nat): Core
    requires report.Report?
  {
    if c.disposing || report.number in seen then c
    else Woken(c.(inputs := Added(c.inputs, report)), seen, next)
  }

  function ReleasedHold(c: Core, seen: set<nat>, next: nat): Core {
    Woken(c.(held := false), seen, next)
  }

  function FailurePassed(c: Core, failure: BlockId, seen: set<nat>, next: nat): Core {
    var last := TurnFailure(c.transcript);
    if last.Some? && last.value.id == failure then Woken(c.(passedFailure := Some(failure)), seen, next) else c
  }

  // What the user withdraws.

  /** The position of the queued message `id`, or the queue's length when there is none. */
  function QueuedAt(pending: seq<Pending>, id: Option<TurnId>): (at: nat)
    ensures at <= |pending|
    ensures at < |pending| ==> pending[at].kind.Send? && (id.Some? ==> pending[at].turn == id.value)
    ensures forall k :: 0 <= k < at ==> !(pending[k].kind.Send? && (id.Some? ==> pending[k].turn == id.value))
  {
    if pending == [] || (pending[0].kind.Send? && (id.Some? ==> pending[0].turn == id.value)) then 0
    else 1 + QueuedAt(pending[1..], id)
  }

  function Dequeued(c: Core, id: TurnId): Core {
    var at := QueuedAt(c.pending, Some(id));
    if c.disposing || at == |c.pending| then c else c.(pending := c.pending[..at] + c.pending[at + 1..])
  }

  /** The queued message `id` ahead of every other. */
  function SentNext(c: Core, id: TurnId): Core {
    var at := QueuedAt(c.pending, Some(id));
    if c.disposing || at == |c.pending| then c
    else
      var rest := c.pending[..at] + c.pending[at + 1..];
      var front := QueuedAt(rest, None);
      c.(pending := rest[..front] + [c.pending[at]] + rest[front..])
  }

  function Others(pending: seq<Pending>): (others: seq<Pending>)
    ensures forall k :: 0 <= k < |others| ==> !others[k].kind.Send?
  {
    if pending == [] then []
    else
      var (before, last) := (Others(pending[..|pending| - 1]), pending[|pending| - 1]);
      if last.kind.Send? then before else before + [last]
  }

  function Sends(pending: seq<Pending>): (sends: seq<Pending>)
    ensures forall k :: 0 <= k < |sends| ==> sends[k].kind.Send?
  {
    if pending == [] then []
    else
      var (before, last) := (Sends(pending[..|pending| - 1]), pending[|pending| - 1]);
      if last.kind.Send? then before + [last] else before
  }

  function QueueCleared(c: Core): Core {
    if c.disposing then c else c.(pending := Others(c.pending))
  }

  function UserBlockAt(blocks: seq<Block>, turn: TurnId): (at: Option<nat>)
    ensures at.Some? ==> at.value < |blocks| && blocks[at.value].body == User(turn)
    ensures at.None? ==> !HasUserTurn(blocks, turn)
  {
    if blocks == [] then None
    else if blocks[|blocks| - 1].body == User(turn) then Some(|blocks| - 1)
    else UserBlockAt(blocks[..|blocks| - 1], turn)
  }

  /** Whether a Stop now would give the running turn's message back. `writing`: a call is being written;
      `scheduled`: the message in the transcript is a schedule's. */
  predicate WouldGiveBack(c: Core, writing: bool, scheduled: bool) {
    c.activity.Running?
    && var run := c.activity.run;
    && run.kind.Send? && run.cancel.None? && !HasSteer(c.inputs.entries) && !writing
    && (if run.unwritten then !run.kind.scheduled
        else
          var at := UserBlockAt(c.transcript, run.turn);
          && at.Some? && !scheduled
          && forall k :: at.value < k < |c.transcript| ==> c.transcript[k].body.Context?)
  }

  /** Cancels what runs, or drops the queue's first action when nothing runs that can be cancelled. */
  function Aborted(c: Core, writing: bool, scheduled: bool): Core {
    if c.disposing then c
    else if c.activity.Running? && c.activity.run.cancel.None? then
      c.(activity := Running(c.activity.run.(cancel := Some(Stop), givingBack := WouldGiveBack(c, writing, scheduled))))
    else if c.pending != [] then c.(pending := c.pending[1..])
    else c
  }

  function Cancelled(c: Core, reason: Reason): Core {
    if c.activity.Running? && c.activity.run.cancel.None?
    then c.(activity := Running(c.activity.run.(cancel := Some(reason))))
    else c
  }

  /** The last message of the user's, if it belongs to a running turn that nothing has stopped and behind
      which nothing waits: an edit may stop that turn. */
  function RunningMessage(c: Core): Option<BlockId> {
    if !c.activity.Running? || c.activity.run.cancel.Some? || WorkWaits(c.inputs.entries) || c.pending != [] || c.preparing
    then None
    else
      var last := LastEditable(c.transcript);
      if last.Some? && TurnOf(last.value) == Some(c.activity.run.turn) then Some(last.value.id) else None
  }

  function LastEditable(blocks: seq<Block>): Option<Block> {
    if blocks == [] then None
    else
      var last := blocks[|blocks| - 1];
      if last.body.User? || last.body.Steer? then Some(last) else LastEditable(blocks[..|blocks| - 1])
  }

  /** Cancels the turn of the message `target` for an edit, and keeps the message where it is. */
  function StoppedForEdit(c: Core, target: BlockId): Core {
    if RunningMessage(c) == Some(target) then Cancelled(c, Stop) else c
  }

  function StoppedForHold(c: Core): Core {
    if c.disposing then c else Cancelled(c, Hold)
  }

  function DisposeBegun(c: Core): Core {
    if c.disposing then c
    else
      var disposing := Cancelled(c.(disposing := true, pending := Sends(c.pending)), Shutdown);
      if c.activity.Idle? then disposing.(activity := Closed(false)) else disposing
  }

  // The running action's end.

  /** The stopped turn's message leaves: it was never written, or what was written from it on is cut. */
  function GivenBack(c: Core): (r: Core)
    requires c.activity.Running?
    ensures r.activity.Running? && (r.activity.run.unwritten ==> c.activity.run.unwritten)
    ensures r.activity.run.kind == c.activity.run.kind
  {
    var run := c.activity.run;
    if run.unwritten then c.(activity := Running(run.(unwritten := false)))
    else
      var at := UserBlockAt(c.transcript, run.turn);
      if at.Some? then c.(transcript := c.transcript[..at.value]) else c
  }

  function MessageWritten(c: Core, next: BlockId): Core
    requires c.activity.Running? && c.activity.run.kind.Send?
  {
    var run := c.activity.run;
    var written := c.(activity := Running(run.(unwritten := false)));
    Wrote(written, c.transcript + [Block(next, User(run.turn), None, run.kind.content)])
  }

  /** A message not in the transcript when its turn stops: a Stop writes it, a hold puts it back first. */
  function UnwrittenSettled(c: Core, reason: Reason, next: BlockId): (r: Core)
    requires c.activity.Running? && (c.activity.run.unwritten ==> c.activity.run.kind.Send?)
    ensures r.activity.Running?
  {
    var run := c.activity.run;
    if !run.unwritten then c
    else
      match reason
      case Stop => MessageWritten(c, next)
      case Hold =>
        c.(activity := Running(run.(unwritten := false)), pending := [Pending(run.kind, run.turn)] + c.pending)
      case Shutdown => c.(activity := Running(run.(unwritten := false)))
  }

  predicate EndsWithInterruption(blocks: seq<Block>) {
    blocks != [] && blocks[|blocks| - 1].body.Error? && blocks[|blocks| - 1].body.interrupted
  }

  function CallsAborted(c: Core): Core {
    if AnyExecuting(c.transcript) then Wrote(c, AllSettled(c.transcript)) else c
  }

  function Marked(c: Core, reason: Reason, givingBack: bool, began: bool, next: BlockId): Core {
    match reason
    case Shutdown =>
      if EndsWithInterruption(c.transcript) then c
      else Wrote(c, c.transcript + [Block(next, Error(false, true), None, 0)])
    case _ =>
      if givingBack && reason.Stop? then c
      else if began then Wrote(c, c.transcript + [Block(next, Abort(false), None, 0)])
      else c
  }

  /** The stopped action with its message given back or in its place, and the inputs a stop writes. */
  function StopWritten(c: Core, reason: Reason, seen: set<nat>, next: nat): (r: Core)
    requires c.activity.Running? && (c.activity.run.unwritten ==> c.activity.run.kind.Send?)
    ensures r.activity.Running?
  {
    var given := if reason.Stop? && c.activity.run.givingBack then GivenBack(c) else c;
    var settled := UnwrittenSettled(given, reason, next);
    if reason.Shutdown? then settled
    else InputsWritten(settled, settled.activity.run.turn, AllButSteers, seen, next)
  }

  function StopRecorded(c: Core, reason: Reason, seen: set<nat>, next: nat): Core
    requires c.activity.Running? && (c.activity.run.unwritten ==> c.activity.run.kind.Send?)
  {
    var written := StopWritten(c, reason, seen, next);
    Marked(CallsAborted(written), reason, c.activity.run.givingBack, written.activity.run.began, next)
  }

  /** A failed action writes the inputs but the steers, and completes the calls it did not run. */
  function Failed(c: Core, seen: set<nat>, next: nat): Core
    requires c.activity.Running?
  {
    CallsAborted(InputsWritten(c, c.activity.run.turn, AllButSteers, seen, next))
  }

  function ActionEnded(c: Core): Core {
    c.(activity := Finishing, preparing := false)
  }

  /** Dispose stopped the action: one that began is recorded as interrupted, a message its turn had not
      written goes back to the queue's front, and the steers follow it. */
  function ShutDown(c: Core, seen: set<nat>, next: nat): Core
    requires c.activity.Running? && (c.activity.run.unwritten ==> c.activity.run.kind.Send?)
  {
    var run := c.activity.run;
    var rejected := c.(preparing := false);
    var stopped := if run.began then StopRecorded(rejected, Shutdown, seen, next)
                   else if run.kind.Send? then rejected.(pending := [Pending(run.kind, run.turn)] + c.pending)
                   else rejected;
    SteersQueued(stopped, if !run.began && run.kind.Send? then 1 else 0).(activity := Closed(run.began))
  }

  /** What a continuation opens with: the reports, or else the agent messages. */
  function ContinuationOpened(c: Core, seen: set<nat>, next: nat): Core
    requires c.activity.Running?
  {
    var unseen := c.(inputs := WithoutSeen(c.inputs, seen));
    var reports := Reports(unseen.inputs.entries);
    if reports != [] then
      Wrote(unseen.(inputs := Happened(unseen.inputs, TakesReports)),
            c.transcript + [Block(next, Wakeup(c.activity.run.turn, true, Events(reports)), None, 0)])
    else if HasAgentInput(unseen.inputs.entries) then InputsWritten(c, c.activity.run.turn, Everything, seen, next)
    else unseen
  }
}
