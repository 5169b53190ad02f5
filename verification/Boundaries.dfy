/**
 What a boundary writes (crates/agent-session/src/core.rs): the inputs it takes, in the order they arrived, as
 blocks of its turn, and whether the turn before it is then still a failed one.
 */
module Boundaries {
  import opened Wrappers
  import opened Blocks
  import opened Inputs
  import opened SessionCores
  import opened Conservation
  import opened SessionRuns

  ghost predicate Ascends(at: seq<nat>) {
    forall i, j :: 0 <= i < j < |at| ==> at[i] < at[j]
  }

  /** The inputs that get a block of their own: each but the reports after the first, when reports are written. */
  ghost predicate HasABlock(inputs: seq<Input>, k: nat, reported: bool) {
    k < |inputs| && (inputs[k].Report? ==> reported && forall j :: 0 <= j < k ==> !inputs[j].Report?)
  }

  /** The block of an input; the block of a report tells all the reports. */
  ghost predicate IsBlockOf(block: Block, input: Input, turn: TurnId, reports: seq<Input>, next: BlockId) {
    match input
    case Steer(id, content) => block.id == id && block.body == Body.Steer(turn) && block.content == content
    case Agent(id, content) => block.id == id && block.body == AgentMessage(turn, Message) && block.content == content
    case Report(_, _, _) =>
      && block.id == next && block.body.Wakeup? && block.body.turn == turn && !block.body.newTurn
      && |block.body.reports| == |reports|
      && forall k :: 0 <= k < |reports| && reports[k].Report? ==> block.body.reports[k] == reports[k].event
  }

  /** `at` are the positions of those inputs, in order, and `blocks` their blocks. */
  ghost predicate WritesInOrder(
      inputs: seq<Input>, at: seq<nat>, blocks: seq<Block>, turn: TurnId, reports: seq<Input>, next: BlockId) {
    && Ascends(at) && |at| == |blocks|
    && (forall k: nat :: k in at <==> HasABlock(inputs, k, reports != []))
    && forall i :: 0 <= i < |at| ==> at[i] < |inputs| && IsBlockOf(blocks[i], inputs[at[i]], turn, reports, next)
  }

  function Shifted(at: seq<nat>): (r: seq<nat>)
    ensures |r| == |at| && forall i :: 0 <= i < |at| ==> r[i] == at[i] + 1
  {
    seq(|at|, i requires 0 <= i < |at| => at[i] + 1)
  }

  lemma {:induction false} ShiftedHolds(at: seq<nat>, k: nat)
    ensures k in Shifted(at) <==> k > 0 && k - 1 in at
  {
    if k > 0 && k - 1 in at {
      var i :| 0 <= i < |at| && at[i] == k - 1;
      assert Shifted(at)[i] == k;
    }
  }

  /** The first input's block comes first, and those of the rest follow. */
  lemma {:induction false} TheFirstIsWritten(
      inputs: seq<Input>, at: seq<nat>, block: Block, blocks: seq<Block>, turn: TurnId, reports: seq<Input>, next: BlockId,
      later: seq<Input>)
    requires inputs != [] && WritesInOrder(inputs[1..], at, blocks, turn, later, next)
    requires later == (if inputs[0].Report? then [] else reports)
    requires HasABlock(inputs, 0, reports != []) && IsBlockOf(block, inputs[0], turn, reports, next)
    ensures WritesInOrder(inputs, [0] + Shifted(at), [block] + blocks, turn, reports, next)
  {
    var all := [0] + Shifted(at);
    forall k: nat ensures k in all <==> HasABlock(inputs, k, reports != []) {
      ShiftedHolds(at, k);
      if k > 0 { ALaterBlock(inputs, k, reports, later); }
    }
    forall i | 0 <= i < |all| ensures all[i] < |inputs| && IsBlockOf(([block] + blocks)[i], inputs[all[i]], turn, reports, next) {
      if i > 0 {
        assert all[i] == at[i - 1] + 1 && inputs[1..][at[i - 1]] == inputs[all[i]];
        assert at[i - 1] in at && HasABlock(inputs[1..], at[i - 1], later != []);
      }
    }
  }

  lemma {:induction false} ALaterBlock(inputs: seq<Input>, k: nat, reports: seq<Input>, later: seq<Input>)
    requires inputs != [] && k > 0 && later == (if inputs[0].Report? then [] else reports)
    ensures HasABlock(inputs, k, reports != []) <==> HasABlock(inputs[1..], k - 1, later != [])
  {
    if k < |inputs| {
      assert inputs[1..][k - 1] == inputs[k];
      assert forall j :: 0 <= j < k - 1 ==> inputs[1..][j] == inputs[j + 1];
      if inputs[0].Report? {
        assert inputs[k].Report? ==> !HasABlock(inputs, k, reports != []);
      } else {
        forall j | 0 < j < k ensures inputs[j] == inputs[1..][j - 1] { }
      }
    }
  }

  lemma {:induction false} TheFirstHasNone(
      inputs: seq<Input>, at: seq<nat>, blocks: seq<Block>, turn: TurnId, next: BlockId)
    requires inputs != [] && inputs[0].Report? && WritesInOrder(inputs[1..], at, blocks, turn, [], next)
    ensures WritesInOrder(inputs, Shifted(at), blocks, turn, [], next)
  {
    forall k: nat ensures k in Shifted(at) <==> HasABlock(inputs, k, false) {
      ShiftedHolds(at, k);
      if k > 0 { ALaterBlock(inputs, k, [], []); }
    }
  }

  lemma {:induction false} BlocksAreInOrder(inputs: seq<Input>, turn: TurnId, reports: seq<Input>, next: BlockId)
    returns (at: seq<nat>)
    requires forall k :: 0 <= k < |reports| ==> reports[k].Report?
    ensures WritesInOrder(inputs, at, BlocksOf(inputs, turn, reports, next), turn, reports, next)
    decreases |inputs|
  {
    at := [];
    if inputs != [] {
      var first := inputs[0];
      var later := if first.Report? then [] else reports;
      at := BlocksAreInOrder(inputs[1..], turn, later, next);
      if first.Report? && reports == [] {
        TheFirstHasNone(inputs, at, BlocksOf(inputs[1..], turn, [], next), turn, next);
        at := Shifted(at);
      } else {
        TheFirstIsWritten(inputs, at, BlocksOf(inputs, turn, reports, next)[0], BlocksOf(inputs[1..], turn, later, next),
                          turn, reports, next, later);
        at := [0] + Shifted(at);
      }
    }
  }

  /** What a boundary writes follows the transcript: the inputs it takes in the order they arrived, the reports as one
      block where the first of them arrived. */
  lemma {:induction false} InputsAreWrittenInOrder(c: Core, turn: TurnId, take: Take, seen: set<nat>, next: nat)
    returns (at: seq<nat>)
    ensures var taken := Taken(Unseen(c.inputs.entries, seen), take);
            var after := InputsWritten(c, turn, take, seen, next).transcript;
            && c.transcript <= after
            && WritesInOrder(taken, at, after[|c.transcript|..], turn, Inputs.Reports(taken), next)
  {
    var taken := Taken(Unseen(c.inputs.entries, seen), take);
    at := BlocksAreInOrder(taken, turn, Inputs.Reports(taken), next);
    assert taken == [] ==> c.transcript[|c.transcript|..] == BlocksOf(taken, turn, Inputs.Reports(taken), next);
  }

  // The turn those blocks are of, and whether it is a failed one.

  /** The last block that names a turn. */
  ghost predicate NamesTheLastTurn(blocks: seq<Block>, k: nat) {
    k < |blocks| && TurnOf(blocks[k]).Some? && forall j :: k < j < |blocks| ==> TurnOf(blocks[j]).None?
  }

  lemma {:induction false} TheLastTurnIsTheLastNamed(blocks: seq<Block>, k: nat)
    requires NamesTheLastTurn(blocks, k)
    ensures LastTurn(blocks) == TurnOf(blocks[k])
  {
    if k < |blocks| - 1 {
      assert forall j :: 0 <= j < |blocks| - 1 ==> blocks[..|blocks| - 1][j] == blocks[j];
      TheLastTurnIsTheLastNamed(blocks[..|blocks| - 1], k);
    }
  }

  /** The turn failed: its error is the last block that is a record of a turn. */
  ghost predicate FailedLast(blocks: seq<Block>, k: nat) {
    k < |blocks| && blocks[k].body.Error? && IsRecord(blocks[k]) && forall j :: k < j < |blocks| ==> !IsRecord(blocks[j])
  }

  lemma {:induction false} TheTurnFailureIsTheLastRecord(blocks: seq<Block>)
    ensures forall k: nat :: FailedLast(blocks, k) ==> TurnFailure(blocks) == Some(blocks[k])
    ensures TurnFailure(blocks).Some? ==> exists k: nat :: FailedLast(blocks, k)
  {
    if blocks != [] {
      var (before, last) := (blocks[..|blocks| - 1], |blocks| - 1);
      TheTurnFailureIsTheLastRecord(before);
      assert forall j :: 0 <= j < last ==> before[j] == blocks[j];
      if IsRecord(blocks[last]) {
        assert blocks[last].body.Error? ==> FailedLast(blocks, last);
      } else {
        forall k: nat | FailedLast(blocks, k) ensures FailedLast(before, k) { }
        if TurnFailure(before).Some? {
          var k: nat :| FailedLast(before, k);
          assert FailedLast(blocks, k);
        }
      }
    }
  }

  lemma {:induction false} AddingNoRecordKeepsTheFailure(blocks: seq<Block>, more: seq<Block>)
    requires forall k :: 0 <= k < |more| ==> !IsRecord(more[k])
    ensures TurnFailure(blocks + more) == TurnFailure(blocks)
  {
    if more == [] {
      assert blocks + more == blocks;
    } else {
      assert (blocks + more)[..|blocks + more| - 1] == blocks + more[..|more| - 1];
      AddingNoRecordKeepsTheFailure(blocks, more[..|more| - 1]);
    }
  }

  lemma {:induction false} WrittenBlocksOfATurn(
      taken: seq<Input>, at: seq<nat>, blocks: seq<Block>, turn: TurnId, next: BlockId)
    requires WritesInOrder(taken, at, blocks, turn, Inputs.Reports(taken), next)
    ensures forall i :: 0 <= i < |blocks| ==>
              TurnOf(blocks[i]) == Some(turn) && (IsRecord(blocks[i]) <==> taken[at[i]].Steer?)
  {
  }

  lemma {:induction false} TheReportsAreThere(taken: seq<Input>)
    ensures (exists k :: 0 <= k < |taken| && taken[k].Report?) ==> Inputs.Reports(taken) != []
  {
    if taken != [] {
      var before := taken[..|taken| - 1];
      TheReportsAreThere(before);
      assert forall k :: 0 <= k < |before| ==> before[k] == taken[k];
    }
  }

  lemma {:induction false} TheBlocksNameTheTurn(before: seq<Block>, blocks: seq<Block>, turn: TurnId)
    requires forall i :: 0 <= i < |blocks| ==> TurnOf(blocks[i]) == Some(turn)
    ensures blocks != [] ==> LastTurn(before + blocks) == Some(turn)
    ensures forall k :: |before| <= k < |before + blocks| ==> TurnOf((before + blocks)[k]) == Some(turn)
  {
    if blocks != [] { TheLastTurnIsTheLastNamed(before + blocks, |before + blocks| - 1); }
  }

  /** What is written is of the turn given, and is written when anything is taken. */
  lemma {:induction false} WrittenInputsAreOfTheTurn(c: Core, turn: TurnId, take: Take, seen: set<nat>, next: nat)
    ensures var taken := Taken(Unseen(c.inputs.entries, seen), take);
            var after := InputsWritten(c, turn, take, seen, next).transcript;
            && (taken != [] ==> LastTurn(after) == Some(turn))
            && forall k :: |c.transcript| <= k < |after| ==> TurnOf(after[k]) == Some(turn)
  {
    var taken := Taken(Unseen(c.inputs.entries, seen), take);
    var after := InputsWritten(c, turn, take, seen, next).transcript;
    var at := InputsAreWrittenInOrder(c, turn, take, seen, next);
    var blocks := after[|c.transcript|..];
    WrittenBlocksOfATurn(taken, at, blocks, turn, next);
    assert after == c.transcript + blocks;
    TheBlocksNameTheTurn(c.transcript, blocks, turn);
    if taken != [] { SomethingIsWritten(taken, at, blocks, turn, next); }
  }

  /** A failed turn stays failed when input joins it, but for a steer, after which its failure is over. */
  lemma {:induction false} OnlyASteerEndsAFailure(c: Core, turn: TurnId, take: Take, seen: set<nat>, next: nat)
    ensures var taken := Taken(Unseen(c.inputs.entries, seen), take);
            TurnFailure(InputsWritten(c, turn, take, seen, next).transcript)
            == if exists k :: 0 <= k < |taken| && taken[k].Steer? then None else TurnFailure(c.transcript)
  {
    var taken := Taken(Unseen(c.inputs.entries, seen), take);
    var after := InputsWritten(c, turn, take, seen, next).transcript;
    var at := InputsAreWrittenInOrder(c, turn, take, seen, next);
    var blocks := after[|c.transcript|..];
    assert after == c.transcript + blocks;
    TheFailureAfter(c.transcript, taken, at, blocks, turn, next);
  }

  lemma {:induction false} TheFailureAfter(
      before: seq<Block>, taken: seq<Input>, at: seq<nat>, blocks: seq<Block>, turn: TurnId, next: BlockId)
    requires WritesInOrder(taken, at, blocks, turn, Inputs.Reports(taken), next)
    ensures TurnFailure(before + blocks)
            == if exists k :: 0 <= k < |taken| && taken[k].Steer? then None else TurnFailure(before)
  {
    WrittenBlocksOfATurn(taken, at, blocks, turn, next);
    if k :| 0 <= k < |taken| && taken[k].Steer? {
      ASteerIsARecord(before, taken, at, blocks, turn, next, k);
    } else {
      AddingNoRecordKeepsTheFailure(before, blocks);
    }
  }

  lemma {:induction false} SomethingIsWritten(
      taken: seq<Input>, at: seq<nat>, blocks: seq<Block>, turn: TurnId, next: BlockId)
    requires taken != [] && WritesInOrder(taken, at, blocks, turn, Inputs.Reports(taken), next)
    ensures blocks != []
  {
    TheReportsAreThere(taken);
    assert HasABlock(taken, 0, Inputs.Reports(taken) != []);
    assert 0 in at;
  }

  lemma {:induction false} ASteerIsARecord(
      before: seq<Block>, taken: seq<Input>, at: seq<nat>, blocks: seq<Block>, turn: TurnId, next: BlockId, k: nat)
    requires WritesInOrder(taken, at, blocks, turn, Inputs.Reports(taken), next) && k < |taken| && taken[k].Steer?
    ensures TurnFailure(before + blocks).None?
  {
    assert HasABlock(taken, k, Inputs.Reports(taken) != []);
    assert k in at;
    var i :| 0 <= i < |at| && at[i] == k;
    var all := before + blocks;
    TheTurnFailureIsTheLastRecord(all);
    WrittenBlocksOfATurn(taken, at, blocks, turn, next);
    assert all[|before| + i] == blocks[i] && IsRecord(blocks[i]);
    forall j: nat ensures !FailedLast(all, j) {
      if j >= |before| && j < |all| { assert all[j] == blocks[j - |before|]; }
    }
  }

  // What a continuation opens with.

  /** A block that begins a continuation: it tells every report, in the order they arrived. */
  ghost predicate TellsTheReports(block: Block, turn: TurnId, entries: seq<Input>) {
    && block.body.Wakeup? && block.body.newTurn && block.body.turn == turn
    && |block.body.reports| == |Inputs.Reports(entries)|
    && forall k :: 0 <= k < |block.body.reports| ==> block.body.reports[k] == Inputs.Reports(entries)[k].event
  }

  lemma {:induction false} NoReports(entries: seq<Input>)
    ensures Inputs.Reports(entries) != [] <==> exists k :: 0 <= k < |entries| && entries[k].Report?
  {
    if entries != [] {
      var (before, last) := (entries[..|entries| - 1], |entries| - 1);
      NoReports(before);
      assert forall k :: 0 <= k < last ==> before[k] == entries[k];
      if k :| 0 <= k < |entries| && entries[k].Report? { assert k < last ==> before[k].Report?; }
    }
  }

  lemma {:induction false} OpeningWithReports(c: Core, seen: set<nat>, next: nat)
    requires c.activity.Running? && Inputs.Reports(Unseen(c.inputs.entries, seen)) != []
    ensures var (entries, after) := (Unseen(c.inputs.entries, seen), ContinuationOpened(c, seen, next));
            && |after.transcript| == |c.transcript| + 1 && after.transcript[..|c.transcript|] == c.transcript
            && after.inputs.entries == WithoutReports(entries)
            && TellsTheReports(after.transcript[|c.transcript|], c.activity.run.turn, entries)
  {
  }

  lemma {:induction false} OpeningWithMessages(c: Core, seen: set<nat>, next: nat)
    requires c.activity.Running? && Inputs.Reports(Unseen(c.inputs.entries, seen)) == []
    requires HasAgentInput(Unseen(c.inputs.entries, seen))
    ensures var after := ContinuationOpened(c, seen, next);
            c.transcript <= after.transcript && after.inputs.entries == [] && LastTurn(after.transcript) == Some(c.activity.run.turn)
  {
    var turn := c.activity.run.turn;
    assert ContinuationOpened(c, seen, next) == InputsWritten(c, turn, Everything, seen, next);
    WritingInputsChangesLittle(c, turn, Everything, seen, next);
    WrittenInputsAreOfTheTurn(c, turn, Everything, seen, next);
    EverythingIsTaken(Unseen(c.inputs.entries, seen));
    var at := InputsAreWrittenInOrder(c, turn, Everything, seen, next);
  }

  lemma {:induction false} OpeningWithNothing(c: Core, seen: set<nat>, next: nat)
    requires c.activity.Running? && Inputs.Reports(Unseen(c.inputs.entries, seen)) == []
    requires !HasAgentInput(Unseen(c.inputs.entries, seen))
    ensures var after := ContinuationOpened(c, seen, next);
            after.inputs.entries == Unseen(c.inputs.entries, seen) && after.transcript == c.transcript
  {
  }

  /** A continuation opens with the reports that wait, whose ends were not seen, as one block; with none of them, it
      opens with everything else when an agent's message waits; and else with nothing. */
  ghost predicate OpensWithWhatWaits(c: Core, entries: seq<Input>, after: Core)
    requires c.activity.Running?
  {
    && |c.transcript| <= |after.transcript| && after.transcript[..|c.transcript|] == c.transcript
    && if exists k :: 0 <= k < |entries| && entries[k].Report? then
         && |after.transcript| == |c.transcript| + 1 && after.inputs.entries == WithoutReports(entries)
         && TellsTheReports(after.transcript[|c.transcript|], c.activity.run.turn, entries)
       else if exists k :: 0 <= k < |entries| && entries[k].Agent? then
         after.inputs.entries == [] && LastTurn(after.transcript) == Some(c.activity.run.turn)
       else after.inputs.entries == entries && after.transcript == c.transcript
  }

  lemma {:induction false} AContinuationOpensWithWhatWaits(c: Core, seen: set<nat>, next: nat)
    requires c.activity.Running?
    ensures OpensWithWhatWaits(c, Unseen(c.inputs.entries, seen), ContinuationOpened(c, seen, next))
  {
    var entries := Unseen(c.inputs.entries, seen);
    NoReports(entries);
    if Inputs.Reports(entries) != [] {
      OpeningWithReports(c, seen, next);
    } else if HasAgentInput(entries) {
      OpeningWithMessages(c, seen, next);
    } else {
      OpeningWithNothing(c, seen, next);
    }
  }

  lemma {:induction false} EverythingIsTaken(entries: seq<Input>)
    ensures Taken(entries, Everything) == entries
  {
    if entries != [] {
      EverythingIsTaken(entries[..|entries| - 1]);
      assert entries == entries[..|entries| - 1] + [entries[|entries| - 1]];
    }
  }
}
