/**
 A transcript's blocks (crates/shared-types/src/block.rs), with what the modelled decisions read of
 them. Identities are numbers, since only their equality is read, and `content` stands for
 everything else a block holds: a write into a block in place makes it one more.
 */
module Blocks {
  import opened Wrappers

  type BlockId = nat
  type TurnId = nat

  /** What a command's report tells: its progress, or any of its ends. */
  datatype ReportEvent = Progress | Ended

  datatype MessageEvent = Completion | Message | Decision

  datatype Body =
    | User(turn: TurnId)
    | Context(turn: TurnId)
    | Wakeup(turn: TurnId, newTurn: bool, reports: seq<ReportEvent>)
    | Steer(turn: TurnId)
    | AgentMessage(turn: TurnId, event: MessageEvent)
    | Resume(turn: TurnId)
    | Abort(isResumed: bool)
    | Thinking(signed: bool)
    | Opaque(reasoning: bool, callId: Option<nat>, running: bool)
    | Text(blank: bool, complete: bool)
    | ToolCall(toolUseId: nat, toolName: nat, executing: bool)
    | Response
    | Error(outsideTurn: bool, interrupted: bool)
    | AccountSwitch
    | CompactionBoundary
    | CompactionMarker

  datatype Block = Block(id: BlockId, body: Body, run: Option<BlockId>, content: nat) {

    predicate MayBeAStep() {
      body.Thinking? || body.Opaque? || body.ToolCall? || body.Wakeup? || body.AgentMessage?
    }

    function Run(): Option<BlockId> {
      if MayBeAStep() then run else None
    }

    /** A block that cannot be a step takes no run. */
    function WithRun(run: Option<BlockId>): Block {
      if MayBeAStep() then this.(run := run) else this
    }
  }
}
