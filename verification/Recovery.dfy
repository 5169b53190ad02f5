/**
 Where a history is cut (crates/agent-transcript/src/cut.rs): a resume unwinds what nobody can have
 acted on, a failed attempt is dropped when all of it is such, and a retry runs the last turn again.
 */
module Recovery {
  import opened Wrappers
  import opened Blocks
  import opened Inputs
  import opened SessionCores
  import opened Conservation
  import opened SessionRuns

  predicate IsCompaction(block: Block) {
    block.body.CompactionBoundary? || block.body.CompactionMarker?
  }

  /** What an attempt leaves that has no effect outside: reasoning, failures, blank text. */
  predicate IsLeftover(block: Block) {
    match block.body
    case Thinking(_) => true
    case Error(_, _) => true
    case Opaque(reasoning, _, _) => reasoning
    case Text(blank, _) => blank
    case _ => false
  }

  predicate OpensInputTurn(block: Block) {
    match block.body
    case User(_) => true
    case Context(_) => true
    case Wakeup(_, newTurn, _) => newTurn
    case _ => false
  }

  /** Where re-inference restarts, and the turn it reruns when the scan reached the turn's opening. */
  datatype ResumePoint = ResumePoint(cut: nat, rerun: Option<TurnId>)

  function ResumePointWithin(blocks: seq<Block>): (point: Option<ResumePoint>)
    ensures point.Some? ==> point.value.cut <= |blocks|
  {
    if blocks == [] then None
    else
      var last := blocks[|blocks| - 1];
      if OpensInputTurn(last) then Some(ResumePoint(|blocks|, TurnOf(last)))
      else if !IsLeftover(last) && !IsCompaction(last) then Some(ResumePoint(|blocks|, None))
      else ResumePointWithin(blocks[..|blocks| - 1])
  }

  function Compactions(blocks: seq<Block>): seq<Block> {
    if blocks == [] then []
    else
      Compactions(blocks[..|blocks| - 1])
      + if IsCompaction(blocks[|blocks| - 1]) then [blocks[|blocks| - 1]] else []
  }

  /** What a resume keeps of a history cut there: the compactions after the cut stay. */
  function Unwound(blocks: seq<Block>, cut: nat): seq<Block>
    requires cut <= |blocks|
  {
    blocks[..cut] + Compactions(blocks[cut..])
  }

  /** What the cut drops: a message, a tool call or anything else somebody can have acted on is not. */
  ghost predicate OnlyLeftovers(blocks: seq<Block>) {
    forall k :: 0 <= k < |blocks| ==> IsLeftover(blocks[k]) || IsCompaction(blocks[k])
  }

  lemma {:induction false} TheScanPassesOnlyLeftovers(blocks: seq<Block>)
    ensures match ResumePointWithin(blocks)
            case None => OnlyLeftovers(blocks)
            case Some(point) =>
              && 0 < point.cut && OnlyLeftovers(blocks[point.cut..])
              && !(IsLeftover(blocks[point.cut - 1]) || IsCompaction(blocks[point.cut - 1]))
  {
    if blocks != [] {
      var before := blocks[..|blocks| - 1];
      TheScanPassesOnlyLeftovers(before);
      assert forall k :: 0 <= k < |before| ==> before[k] == blocks[k];
      if ResumePointWithin(blocks) == ResumePointWithin(before) && ResumePointWithin(before).Some? {
        var cut := ResumePointWithin(before).value.cut;
        assert forall k :: 0 <= k < |before| - cut ==> blocks[cut..][k] == before[cut..][k];
      }
    }
  }

  /** What somebody can have acted on, or the model answers to: any message or input, a call, a vendor's step that is
      no reasoning, text that is not blank, and the ends of turns and answers but for failures. */
  ghost predicate WasActedOn(block: Block) {
    || block.body.User? || block.body.Context? || block.body.Wakeup? || block.body.Steer? || block.body.AgentMessage?
    || block.body.Resume? || block.body.Abort? || block.body.ToolCall? || block.body.Response? || block.body.AccountSwitch?
    || (block.body.Opaque? && !block.body.reasoning) || (block.body.Text? && !block.body.blank)
  }

  /** A turn's input that a new turn began with. */
  ghost predicate BeginsATurn(block: Block) {
    block.body.User? || block.body.Context? || (block.body.Wakeup? && block.body.newTurn)
  }

  ghost predicate WasActedOnLast(blocks: seq<Block>, k: nat) {
    k < |blocks| && WasActedOn(blocks[k]) && forall j :: k < j < |blocks| ==> !WasActedOn(blocks[j])
  }

  lemma {:induction false} AScanPasses(block: Block)
    ensures IsLeftover(block) || IsCompaction(block) <==> !WasActedOn(block)
    ensures OpensInputTurn(block) <==> BeginsATurn(block)
    ensures BeginsATurn(block) ==> TurnOf(block) == Some(block.body.turn) && WasActedOn(block)
  {
  }

  /** Inference goes on after the last block that was acted on, and runs a turn again exactly when it began it. */
  lemma {:induction false} InferenceResumesAfterWhatWasActedOn(blocks: seq<Block>)
    ensures ResumePointWithin(blocks).None? <==> forall k :: 0 <= k < |blocks| ==> !WasActedOn(blocks[k])
    ensures forall k: nat :: WasActedOnLast(blocks, k) ==>
              ResumePointWithin(blocks)
              == Some(ResumePoint(k + 1, if BeginsATurn(blocks[k]) then Some(blocks[k].body.turn) else None))
  {
    if blocks != [] {
      var (before, last) := (blocks[..|blocks| - 1], |blocks| - 1);
      InferenceResumesAfterWhatWasActedOn(before);
      assert forall k :: 0 <= k < last ==> before[k] == blocks[k];
      AScanPasses(blocks[last]);
      forall k: nat | WasActedOnLast(blocks, k) && k < last ensures WasActedOnLast(before, k) { }
    }
  }

  /** A resume keeps every compaction: an unwound history is replayed from the same boundary. */
  lemma {:induction false} UnwindingKeepsEveryCompaction(blocks: seq<Block>, cut: nat, block: Block)
    requires cut <= |blocks| && IsCompaction(block)
    ensures multiset(Unwound(blocks, cut))[block] == multiset(blocks)[block]
  {
    assert blocks == blocks[..cut] + blocks[cut..];
    CompactionsAreKept(blocks[cut..], block);
  }

  lemma {:induction false} CompactionsAreKept(blocks: seq<Block>, block: Block)
    requires IsCompaction(block)
    ensures multiset(Compactions(blocks))[block] == multiset(blocks)[block]
  {
    if blocks != [] {
      assert blocks == blocks[..|blocks| - 1] + [blocks[|blocks| - 1]];
      CompactionsAreKept(blocks[..|blocks| - 1], block);
    }
  }

  lemma {:induction false} LeftoversHoldNoMessage(blocks: seq<Block>, p: Pattern)
    requires OnlyLeftovers(blocks)
    ensures BlockTimes(blocks, p) == 0
  {
    if blocks != [] {
      assert IsLeftover(blocks[|blocks| - 1]) || IsCompaction(blocks[|blocks| - 1]);
      LeftoversHoldNoMessage(blocks[..|blocks| - 1], p);
    }
  }

  lemma {:induction false} CompactionsAreLeft(blocks: seq<Block>)
    ensures OnlyLeftovers(Compactions(blocks))
  {
    if blocks != [] {
      CompactionsAreLeft(blocks[..|blocks| - 1]);
    }
  }

  /** Unwinding a turn to its resume point loses no message. */
  lemma {:induction false} UnwindingKeepsMessages(blocks: seq<Block>, point: ResumePoint)
    requires ResumePointWithin(blocks) == Some(point)
    ensures KeepsMessages(blocks, Unwound(blocks, point.cut))
  {
    TheScanPassesOnlyLeftovers(blocks);
    CompactionsAreLeft(blocks[point.cut..]);
    forall p: Pattern ensures BlockTimes(blocks, p) == BlockTimes(Unwound(blocks, point.cut), p) {
      assert blocks == blocks[..point.cut] + blocks[point.cut..];
      BlocksInBoth(blocks[..point.cut], blocks[point.cut..], p);
      BlocksInBoth(blocks[..point.cut], Compactions(blocks[point.cut..]), p);
      LeftoversHoldNoMessage(blocks[point.cut..], p);
      LeftoversHoldNoMessage(Compactions(blocks[point.cut..]), p);
    }
  }

  /** The scan of the window does not stop past the attempt's start; one that passes the whole window
      cuts before it, when the window does not start the path. */
  predicate CanUnwindTo(blocks: seq<Block>, start: nat, startsThePath: bool) {
    match ResumePointWithin(blocks)
    case None => !startsThePath
    case Some(point) => point.cut <= start
  }

  lemma {:induction false} CuttingLeftoversKeepsMessages(blocks: seq<Block>, start: nat)
    requires start <= |blocks| && OnlyLeftovers(blocks[start..])
    ensures KeepsMessages(blocks, blocks[..start])
  {
    assert blocks == blocks[..start] + blocks[start..];
    forall p: Pattern ensures BlockTimes(blocks, p) == BlockTimes(blocks[..start], p) {
      BlocksInBoth(blocks[..start], blocks[start..], p);
      LeftoversHoldNoMessage(blocks[start..], p);
    }
  }

  lemma {:induction false} OnlyLeftoversFromALaterPlace(blocks: seq<Block>, cut: nat, start: nat)
    requires cut <= start <= |blocks| && OnlyLeftovers(blocks[cut..])
    ensures OnlyLeftovers(blocks[start..])
  {
    assert forall k :: 0 <= k < |blocks| - start ==> blocks[start..][k] == blocks[cut..][k + (start - cut)];
  }

  /** An attempt is dropped exactly when it wrote only leftovers and compactions, so that no message and
      no tool call is lost. */
  lemma {:induction false} AnAttemptIsDroppedExactlyWhenItIsLeftovers(blocks: seq<Block>, start: nat, startsThePath: bool)
    requires start <= |blocks|
    ensures CanUnwindTo(blocks, start, startsThePath)
            <==> OnlyLeftovers(blocks[start..]) && !(startsThePath && OnlyLeftovers(blocks))
    ensures CanUnwindTo(blocks, start, startsThePath) ==> KeepsMessages(blocks, blocks[..start])
  {
    TheScanPassesOnlyLeftovers(blocks);
    var point := ResumePointWithin(blocks);
    if point.Some? {
      assert !OnlyLeftovers(blocks);
      if point.value.cut <= start {
        OnlyLeftoversFromALaterPlace(blocks, point.value.cut, start);
        CuttingLeftoversKeepsMessages(blocks, start);
      } else {
        assert blocks[start..][point.value.cut - 1 - start] == blocks[point.value.cut - 1];
      }
    } else {
      assert blocks[0..] == blocks;
      OnlyLeftoversFromALaterPlace(blocks, 0, start);
      CuttingLeftoversKeepsMessages(blocks, start);
    }
  }

  // A retry.

  predicate FirstOfItsTurn(blocks: seq<Block>, at: nat)
    requires at < |blocks|
  {
    TurnOf(blocks[at]).Some? && forall k :: 0 <= k < at ==> TurnOf(blocks[k]) != TurnOf(blocks[at])
  }

  predicate OpensARetriedTurn(blocks: seq<Block>, at: nat)
    requires at < |blocks|
  {
    OpensInputTurn(blocks[at]) || (blocks[at].body.AgentMessage? && FirstOfItsTurn(blocks, at))
  }

  /** The last block before `end` that opened an input turn. */
  function RetryStart(blocks: seq<Block>, end: nat): (start: Option<nat>)
    requires end <= |blocks|
    ensures start.Some? ==> start.value < end && OpensARetriedTurn(blocks, start.value)
    ensures forall k :: 0 <= k < end && OpensARetriedTurn(blocks, k) ==> start.Some? && k <= start.value
  {
    if end == 0 then None
    else if OpensARetriedTurn(blocks, end - 1) then Some(end - 1)
    else RetryStart(blocks, end - 1)
  }

  predicate KeptByARetry(block: Block, turn: TurnId) {
    block.body.AgentMessage? || block.body == Body.Steer(turn)
  }

  function KeptAfter(blocks: seq<Block>, turn: TurnId): seq<Block> {
    if blocks == [] then []
    else
      KeptAfter(blocks[..|blocks| - 1], turn)
      + if KeptByARetry(blocks[|blocks| - 1], turn) then [blocks[|blocks| - 1]] else []
  }

  /** What a retry keeps: the history through the input it reruns, then of the blocks behind it only agent
      messages and the steers of that input's turn. */
  function Rewound(blocks: seq<Block>, start: nat): seq<Block>
    requires start < |blocks| && OpensARetriedTurn(blocks, start)
  {
    blocks[..start + 1] + KeptAfter(blocks[start + 1..], TurnOf(blocks[start]).value)
  }

  /** How many of the blocks that fit a retry drops. */
  function Lost(blocks: seq<Block>, turn: TurnId, p: Pattern): nat {
    if blocks == [] then 0
    else
      Lost(blocks[..|blocks| - 1], turn, p)
      + One(BlockFits(blocks[|blocks| - 1], p) && !KeptByARetry(blocks[|blocks| - 1], turn))
  }

  /** What a retry keeps of the blocks behind the input it reruns: each agent's message, and the steers of its turn. */
  ghost predicate StaysForARetry(block: Block, turn: TurnId) {
    block.body.AgentMessage? || (block.body.Steer? && block.body.turn == turn)
  }

  /** `at` are the positions of what stays, in order, and `kept` those blocks. */
  ghost predicate StaysAt(blocks: seq<Block>, turn: TurnId, at: seq<nat>, kept: seq<Block>) {
    && |at| == |kept| && (forall i, j :: 0 <= i < j < |at| ==> at[i] < at[j])
    && (forall k: nat :: k in at <==> k < |blocks| && StaysForARetry(blocks[k], turn))
    && forall i :: 0 <= i < |at| ==> at[i] < |blocks| && kept[i] == blocks[at[i]]
  }

  lemma {:induction false} OneMoreStays(blocks: seq<Block>, turn: TurnId, at: seq<nat>, kept: seq<Block>, last: Block)
    requires StaysAt(blocks, turn, at, kept)
    ensures if StaysForARetry(last, turn) then StaysAt(blocks + [last], turn, at + [|blocks|], kept + [last])
            else StaysAt(blocks + [last], turn, at, kept)
  {
    var all := blocks + [last];
    assert forall k :: 0 <= k < |blocks| ==> all[k] == blocks[k];
    assert forall i :: 0 <= i < |at| ==> at[i] in at;
  }

  lemma {:induction false} ARetryKeepsThose(blocks: seq<Block>, turn: TurnId) returns (at: seq<nat>)
    ensures StaysAt(blocks, turn, at, KeptAfter(blocks, turn))
  {
    at := [];
    if blocks != [] {
      var (before, last) := (blocks[..|blocks| - 1], blocks[|blocks| - 1]);
      at := ARetryKeepsThose(before, turn);
      assert blocks == before + [last];
      OneMoreStays(before, turn, at, KeptAfter(before, turn), last);
      assert KeptAfter(before, turn) + [] == KeptAfter(before, turn);
      if StaysForARetry(last, turn) { at := at + [|before|]; }
    }
  }

  /** The input a retry runs again: the last that opened a turn, an agent's message when its turn had nothing
      before it. */
  ghost predicate IsRetried(blocks: seq<Block>, at: nat) {
    && at < |blocks|
    && (BeginsATurn(blocks[at])
        || (blocks[at].body.AgentMessage? && forall k :: 0 <= k < at ==> TurnOf(blocks[k]) != Some(blocks[at].body.turn)))
  }

  lemma {:induction false} ARetryRunsTheLastInputAgain(blocks: seq<Block>)
    ensures match RetryStart(blocks, |blocks|)
            case Some(start) => IsRetried(blocks, start) && forall k: nat :: IsRetried(blocks, k) ==> k <= start
            case None => forall k: nat :: !IsRetried(blocks, k)
  {
    forall k: nat | k < |blocks| ensures OpensARetriedTurn(blocks, k) <==> IsRetried(blocks, k) {
      AScanPasses(blocks[k]);
    }
  }

  lemma {:induction false} WhatARetryDropsIsLost(blocks: seq<Block>, turn: TurnId, p: Pattern)
    ensures BlockTimes(KeptAfter(blocks, turn), p) + Lost(blocks, turn, p) == BlockTimes(blocks, p)
  {
    if blocks != [] {
      var (before, last) := (blocks[..|blocks| - 1], blocks[|blocks| - 1]);
      WhatARetryDropsIsLost(before, turn, p);
      if KeptByARetry(last, turn) {
        BlocksWithOneMore(KeptAfter(before, turn), last, p);
      } else {
        assert KeptAfter(before, turn) + [] == KeptAfter(before, turn);
      }
    }
  }

  lemma {:induction false} NothingIsLostExactlyWhen(blocks: seq<Block>, turn: TurnId, p: Pattern)
    ensures Lost(blocks, turn, p) == 0
            <==> forall k :: 0 <= k < |blocks| && BlockFits(blocks[k], p) ==> KeptByARetry(blocks[k], turn)
  {
    if blocks != [] {
      var before := blocks[..|blocks| - 1];
      NothingIsLostExactlyWhen(before, turn, p);
      assert forall k :: 0 <= k < |before| ==> before[k] == blocks[k];
    }
  }

  /** The blocks after the input a retry reruns hold no other message of the user's but steers. */
  lemma {:induction false} AfterTheRetriedInput(blocks: seq<Block>, start: nat)
    requires RetryStart(blocks, |blocks|) == Some(start)
    ensures forall k :: start < k < |blocks| ==> !blocks[k].body.User?
  {
    forall k | start < k < |blocks| ensures !blocks[k].body.User? {
      assert !OpensARetriedTurn(blocks, k);
    }
  }

  lemma {:induction false} NothingIsLostAfterTheInputExactlyWhen(blocks: seq<Block>, start: nat, turn: TurnId, p: Pattern)
    requires start < |blocks| && forall k :: start < k < |blocks| ==> !blocks[k].body.User?
    ensures Lost(blocks[start + 1..], turn, p) == 0
            <==> forall k :: start < k < |blocks| && BlockFits(blocks[k], p) ==> blocks[k].body == Body.Steer(turn)
  {
    var rest := blocks[start + 1..];
    NothingIsLostExactlyWhen(rest, turn, p);
    assert forall k :: start < k < |blocks| ==> rest[k - start - 1] == blocks[k];
    assert forall k :: 0 <= k < |rest| ==> rest[k] == blocks[start + 1 + k];
  }

  lemma {:induction false} ARetryKeepsAMessageExactlyWhen(blocks: seq<Block>, start: nat, p: Pattern)
    requires RetryStart(blocks, |blocks|) == Some(start)
    ensures BlockTimes(blocks, p) == BlockTimes(Rewound(blocks, start), p)
            <==> forall k :: start < k < |blocks| && BlockFits(blocks[k], p) ==>
                               blocks[k].body == Body.Steer(TurnOf(blocks[start]).value)
  {
    var turn := TurnOf(blocks[start]).value;
    var (kept, rest) := (blocks[..start + 1], blocks[start + 1..]);
    assert blocks == kept + rest;
    AfterTheRetriedInput(blocks, start);
    BlocksInBoth(kept, rest, p);
    BlocksInBoth(kept, KeptAfter(rest, turn), p);
    WhatARetryDropsIsLost(rest, turn, p);
    NothingIsLostAfterTheInputExactlyWhen(blocks, start, turn, p);
  }

  /** A retry keeps every message exactly when each steer after the input it reruns is of that turn. One
      that a resumed turn took, under that turn's own identity, leaves the path. */
  lemma {:induction false} ARetryKeepsMessagesExactlyWhen(blocks: seq<Block>, start: nat)
    requires RetryStart(blocks, |blocks|) == Some(start)
    ensures KeepsMessages(blocks, Rewound(blocks, start))
            <==> (forall k :: start < k < |blocks| && blocks[k].body.Steer? ==>
                                Some(blocks[k].body.turn) == TurnOf(blocks[start]))
  {
    AfterTheRetriedInput(blocks, start);
    if k :| start < k < |blocks| && blocks[k].body.Steer? && Some(blocks[k].body.turn) != TurnOf(blocks[start]) {
      var p := Pattern(blocks[k].id, None);
      ARetryKeepsAMessageExactlyWhen(blocks, start, p);
      assert BlockFits(blocks[k], p);
    } else {
      forall p: Pattern ensures BlockTimes(blocks, p) == BlockTimes(Rewound(blocks, start), p) {
        ARetryKeepsAMessageExactlyWhen(blocks, start, p);
      }
    }
  }

  /** A retry drops a steer: the last turn was stopped and resumed, and the steer joined the resumed turn. */
  lemma {:induction false} ARetryMayDropASteer(user: Block, resume: Block, steer: Block)
    requires user.body == User(1) && resume.body == Body.Resume(2) && steer.body == Body.Steer(2) && steer.id != 1
    ensures var blocks := [user, resume, steer];
            && RetryStart(blocks, 3) == Some(0) && Rewound(blocks, 0) == [user]
            && BlockTimes(blocks, Pattern(steer.id, None)) == 1 && BlockTimes([user], Pattern(steer.id, None)) == 0
  {
    var blocks := [user, resume, steer];
    assert blocks[..2] == [user, resume] && [user, resume][..1] == [user] && [user][..0] == [];
    assert RetryStart(blocks, 1) == Some(0) && RetryStart(blocks, 2) == Some(0);
    assert blocks[..1] == [user] && blocks[1..] == [resume, steer];
    assert [resume, steer][..1] == [resume] && [resume][..0] == [];
    assert KeptAfter([resume], 1) == [];
    assert KeptAfter([resume, steer], 1) == [];
    assert Rewound(blocks, 0) == [user] + KeptAfter([resume, steer], 1);
    var p := Pattern(steer.id, None);
    assert BlockTimes([user], p) == 0 && BlockTimes([user, resume], p) == 0;
  }
}
