/**
 Every message and steer a session accepts is in one place until it is withdrawn or given back
 (crates/agent-session/src/core.rs): a waiting input, the queue, the running action's own message, or
 the transcript.
 */
module Conservation {
  import opened Wrappers
  import opened Blocks
  import opened Inputs
  import opened SessionCores

  /** A message by its id, and by its content when one is given. */
  datatype Pattern = Pattern(id: MessageId, content: Option<nat>)

  predicate Fits(p: Pattern, id: MessageId, content: nat) {
    p.id == id && (p.content.None? || p.content.value == content)
  }

  function One(b: bool): nat {
    if b then 1 else 0
  }

  predicate SteerFits(input: Input, p: Pattern) {
    input.Steer? && Fits(p, input.id, input.content)
  }

  predicate SendFits(action: Pending, p: Pattern) {
    action.kind.Send? && Fits(p, action.turn, action.kind.content)
  }

  predicate BlockFits(block: Block, p: Pattern) {
    match block.body
    case User(turn) => Fits(p, turn, block.content)
    case Steer(_) => Fits(p, block.id, block.content)
    case _ => false
  }

  function SteerTimes(entries: seq<Input>, p: Pattern): nat {
    if entries == [] then 0
    else SteerTimes(entries[..|entries| - 1], p) + One(SteerFits(entries[|entries| - 1], p))
  }

  function SendTimes(pending: seq<Pending>, p: Pattern): nat {
    if pending == [] then 0
    else SendTimes(pending[..|pending| - 1], p) + One(SendFits(pending[|pending| - 1], p))
  }

  function BlockTimes(blocks: seq<Block>, p: Pattern): nat {
    if blocks == [] then 0
    else BlockTimes(blocks[..|blocks| - 1], p) + One(BlockFits(blocks[|blocks| - 1], p))
  }

  function RunTimes(activity: Activity, p: Pattern): nat {
    One(activity.Running? && activity.run.unwritten && activity.run.kind.Send?
        && Fits(p, activity.run.turn, activity.run.kind.content))
  }

  /** How many places of the session hold a message that fits. */
  function Places(c: Core, p: Pattern): nat {
    SteerTimes(c.inputs.entries, p) + SendTimes(c.pending, p) + RunTimes(c.activity, p) + BlockTimes(c.transcript, p)
  }

  // Counting in parts.

  lemma {:induction false} SteersInBoth(a: seq<Input>, b: seq<Input>, p: Pattern)
    ensures SteerTimes(a + b, p) == SteerTimes(a, p) + SteerTimes(b, p)
  {
    if b == [] {
      assert a + b == a;
    } else {
      assert (a + b)[..|a + b| - 1] == a + b[..|b| - 1];
      SteersInBoth(a, b[..|b| - 1], p);
    }
  }

  lemma {:induction false} SendsInBoth(a: seq<Pending>, b: seq<Pending>, p: Pattern)
    ensures SendTimes(a + b, p) == SendTimes(a, p) + SendTimes(b, p)
  {
    if b == [] {
      assert a + b == a;
    } else {
      assert (a + b)[..|a + b| - 1] == a + b[..|b| - 1];
      SendsInBoth(a, b[..|b| - 1], p);
    }
  }

  lemma {:induction false} BlocksInBoth(a: seq<Block>, b: seq<Block>, p: Pattern)
    ensures BlockTimes(a + b, p) == BlockTimes(a, p) + BlockTimes(b, p)
  {
    if b == [] {
      assert a + b == a;
    } else {
      assert (a + b)[..|a + b| - 1] == a + b[..|b| - 1];
      BlocksInBoth(a, b[..|b| - 1], p);
    }
  }

  lemma {:induction false} OneInput(input: Input, p: Pattern)
    ensures SteerTimes([input], p) == One(SteerFits(input, p))
  {
    assert [input][..0] == [];
  }

  lemma {:induction false} OneAction(action: Pending, p: Pattern)
    ensures SendTimes([action], p) == One(SendFits(action, p))
  {
    assert [action][..0] == [];
  }

  lemma {:induction false} OneBlock(block: Block, p: Pattern)
    ensures BlockTimes([block], p) == One(BlockFits(block, p))
  {
    assert [block][..0] == [];
  }

  lemma {:induction false} SteersWithoutOne(entries: seq<Input>, at: nat, p: Pattern)
    requires at < |entries|
    ensures SteerTimes(Without(entries, at), p) + One(SteerFits(entries[at], p)) == SteerTimes(entries, p)
  {
    assert entries == entries[..at] + [entries[at]] + entries[at + 1..];
    SteersInBoth(entries[..at] + [entries[at]], entries[at + 1..], p);
    SteersInBoth(entries[..at], [entries[at]], p);
    SteersInBoth(entries[..at], entries[at + 1..], p);
    OneInput(entries[at], p);
  }

  lemma {:induction false} SendsWithOne(before: seq<Pending>, action: Pending, after: seq<Pending>, p: Pattern)
    ensures SendTimes(before + [action] + after, p) == SendTimes(before + after, p) + One(SendFits(action, p))
  {
    SendsInBoth(before + [action], after, p);
    SendsInBoth(before, [action], p);
    SendsInBoth(before, after, p);
    OneAction(action, p);
  }

  lemma {:induction false} SendsWithoutOne(pending: seq<Pending>, at: nat, p: Pattern)
    requires at < |pending|
    ensures SendTimes(pending[..at] + pending[at + 1..], p) + One(SendFits(pending[at], p)) == SendTimes(pending, p)
  {
    assert pending == pending[..at] + [pending[at]] + pending[at + 1..];
    SendsWithOne(pending[..at], pending[at], pending[at + 1..], p);
  }

  lemma {:induction false} BlocksWithOneMore(blocks: seq<Block>, block: Block, p: Pattern)
    ensures BlockTimes(blocks + [block], p) == BlockTimes(blocks, p) + One(BlockFits(block, p))
  {
    assert (blocks + [block])[..|blocks|] == blocks;
  }

  lemma {:induction false} TakingKeepsTheSteers(entries: seq<Input>, take: Take, p: Pattern)
    ensures SteerTimes(Taken(entries, take), p) + SteerTimes(Left(entries, take), p) == SteerTimes(entries, p)
  {
    if entries != [] {
      var (before, last) := (entries[..|entries| - 1], entries[|entries| - 1]);
      TakingKeepsTheSteers(before, take, p);
      SteersInBoth(Taken(before, take), [last], p);
      SteersInBoth(Left(before, take), [last], p);
      OneInput(last, p);
    }
  }

  lemma {:induction false} SeenReportsAreNoSteers(entries: seq<Input>, seen: set<nat>, p: Pattern)
    ensures SteerTimes(Unseen(entries, seen), p) == SteerTimes(entries, p)
  {
    if entries != [] {
      var (before, last) := (entries[..|entries| - 1], entries[|entries| - 1]);
      SeenReportsAreNoSteers(before, seen, p);
      SteersInBoth(Unseen(before, seen), [last], p);
      OneInput(last, p);
    }
  }

  lemma {:induction false} ReportsAreNoSteers(entries: seq<Input>, p: Pattern)
    ensures SteerTimes(WithoutReports(entries), p) == SteerTimes(entries, p)
  {
    if entries != [] {
      var (before, last) := (entries[..|entries| - 1], entries[|entries| - 1]);
      ReportsAreNoSteers(before, p);
      SteersInBoth(WithoutReports(before), [last], p);
      OneInput(last, p);
    }
  }

  /** A boundary's blocks hold the steers it took. */
  lemma {:induction false} WrittenSteersAreInBlocks(inputs: seq<Input>, turn: TurnId, reports: seq<Input>, next: BlockId,
                                                    p: Pattern)
    requires forall k :: 0 <= k < |reports| ==> reports[k].Report?
    ensures BlockTimes(BlocksOf(inputs, turn, reports, next), p) == SteerTimes(inputs, p)
    decreases |inputs|
  {
    if inputs != [] {
      var (first, rest) := (inputs[0], inputs[1..]);
      assert inputs == [first] + rest;
      SteersInBoth([first], rest, p);
      OneInput(first, p);
      match first
      case Steer(id, content) =>
        var block := Block(id, Body.Steer(turn), None, content);
        WrittenSteersAreInBlocks(rest, turn, reports, next, p);
        BlocksInBoth([block], BlocksOf(rest, turn, reports, next), p);
        OneBlock(block, p);
      case Agent(id, content) =>
        var block := Block(id, AgentMessage(turn, Message), None, content);
        WrittenSteersAreInBlocks(rest, turn, reports, next, p);
        BlocksInBoth([block], BlocksOf(rest, turn, reports, next), p);
        OneBlock(block, p);
      case Report(_, _, _) =>
        WrittenSteersAreInBlocks(rest, turn, [], next, p);
        if reports != [] {
          var block := Block(next, Wakeup(turn, false, Events(reports)), None, 0);
          BlocksInBoth([block], BlocksOf(rest, turn, [], next), p);
          OneBlock(block, p);
        }
    }
  }

  lemma {:induction false} SettledCallsAreNoMessages(a: seq<Block>, b: seq<Block>, p: Pattern)
    requires |a| == |b| && forall k :: 0 <= k < |a| ==> b[k] == Settled(a[k])
    ensures BlockTimes(a, p) == BlockTimes(b, p)
  {
    if a != [] {
      SettledCallsAreNoMessages(a[..|a| - 1], b[..|b| - 1], p);
    }
  }

  lemma {:induction false} OnlySendsAreMessages(pending: seq<Pending>, p: Pattern)
    ensures SendTimes(Sends(pending), p) == SendTimes(pending, p) && SendTimes(Others(pending), p) == 0
  {
    if pending != [] {
      var (before, last) := (pending[..|pending| - 1], pending[|pending| - 1]);
      OnlySendsAreMessages(before, p);
      SendsInBoth(Sends(before), [last], p);
      SendsInBoth(Others(before), [last], p);
      OneAction(last, p);
    }
  }

  // The steps that move messages.

  lemma {:induction false} WritingBlocks(c: Core, transcript: seq<Block>, p: Pattern)
    ensures Places(Wrote(c, transcript), p) + BlockTimes(c.transcript, p) == Places(c, p) + BlockTimes(transcript, p)
    ensures RunTimes(Wrote(c, transcript).activity, p) == RunTimes(c.activity, p)
  {
  }

  lemma {:induction false} TakenSteersAreWritten(
      entries: seq<Input>, take: Take, blocks: seq<Block>, turn: TurnId, next: nat, p: Pattern)
    ensures var taken := Taken(entries, take);
            SteerTimes(Left(entries, take), p) + BlockTimes(blocks + BlocksOf(taken, turn, Reports(taken), next), p)
            == SteerTimes(entries, p) + BlockTimes(blocks, p)
    ensures Taken(entries, take) == [] ==> SteerTimes(Left(entries, take), p) == SteerTimes(entries, p)
  {
    var taken := Taken(entries, take);
    TakingKeepsTheSteers(entries, take, p);
    WrittenSteersAreInBlocks(taken, turn, Reports(taken), next, p);
    BlocksInBoth(blocks, BlocksOf(taken, turn, Reports(taken), next), p);
  }

  lemma {:induction false} WritingInputsKeepsMessages(
      c: Core, turn: TurnId, take: Take, seen: set<nat>, next: nat, p: Pattern)
    ensures Places(InputsWritten(c, turn, take, seen, next), p) == Places(c, p)
    ensures RunTimes(InputsWritten(c, turn, take, seen, next).activity, p) == RunTimes(c.activity, p)
  {
    var entries := Unseen(c.inputs.entries, seen);
    SeenReportsAreNoSteers(c.inputs.entries, seen, p);
    TakenSteersAreWritten(entries, take, c.transcript, turn, next, p);
    var taken := Taken(entries, take);
    var left := c.(inputs := Happened(WithoutSeen(c.inputs, seen), Takes(take)));
    assert Places(left, p) + SteerTimes(entries, p) == Places(c, p) + SteerTimes(left.inputs.entries, p);
    WritingBlocks(left, c.transcript + BlocksOf(taken, turn, Reports(taken), next), p);
  }

  lemma {:induction false} StartingTheFirstSteer(c: Core, p: Pattern)
    requires HasSteer(c.inputs.entries) && !c.activity.Running?
    ensures var at := SteerAt(c.inputs.entries, None);
            var message := AsMessage(c.inputs.entries[at]);
            Places(Started(c.(inputs := Happened(c.inputs, TakesFirstSteer)), message.kind, message.turn), p)
            == Places(c, p)
  {
    SteersWithoutOne(c.inputs.entries, SteerAt(c.inputs.entries, None), p);
  }

  lemma {:induction false} SendsFromTheSecond(pending: seq<Pending>, p: Pattern)
    requires pending != []
    ensures SendTimes(pending[1..], p) + One(SendFits(pending[0], p)) == SendTimes(pending, p)
  {
    SendsWithoutOne(pending, 0, p);
    assert pending[..0] + pending[1..] == pending[1..];
  }

  lemma {:induction false} StartingTheFirstAction(c: Core, p: Pattern)
    requires c.pending != [] && !c.activity.Running?
    ensures Places(Started(c.(pending := c.pending[1..]), c.pending[0].kind, c.pending[0].turn), p) == Places(c, p)
  {
    SendsFromTheSecond(c.pending, p);
  }

  lemma {:induction false} TheFirstSteerIsQueuedNext(c: Core, ahead: nat)
    requires ahead <= |c.pending| && HasSteer(c.inputs.entries)
    ensures var message := AsMessage(c.inputs.entries[SteerAt(c.inputs.entries, None)]);
            SteersQueued(c, ahead)
            == SteersQueued(c.(inputs := Happened(c.inputs, TakesFirstSteer),
                               pending := c.pending[..ahead] + [message] + c.pending[ahead..]),
                            ahead + 1)
  {
  }

  lemma {:induction false} QueuingSteersKeepsMessages(c: Core, ahead: nat, p: Pattern)
    requires ahead <= |c.pending|
    ensures Places(SteersQueued(c, ahead), p) == Places(c, p)
    ensures SteersQueued(c, ahead).activity == c.activity && SteersQueued(c, ahead).transcript == c.transcript
    decreases |c.inputs.entries|
  {
    var at := SteerAt(c.inputs.entries, None);
    if at < |c.inputs.entries| {
      var message := AsMessage(c.inputs.entries[at]);
      TheFirstSteerIsQueuedNext(c, ahead);
      SteersWithoutOne(c.inputs.entries, at, p);
      SendsWithOne(c.pending[..ahead], message, c.pending[ahead..], p);
      assert c.pending[..ahead] + c.pending[ahead..] == c.pending;
      QueuingSteersKeepsMessages(c.(inputs := Happened(c.inputs, TakesFirstSteer),
                                    pending := c.pending[..ahead] + [message] + c.pending[ahead..]),
                                 ahead + 1, p);
    }
  }

  /** The steers among the inputs, as messages. */
  function SteersAsMessages(entries: seq<Input>): seq<Pending> {
    if entries == [] then []
    else if entries[0].Steer? then [AsMessage(entries[0])] + SteersAsMessages(entries[1..])
    else SteersAsMessages(entries[1..])
  }

  lemma {:induction false} TakingTheFirstSteerFirst(entries: seq<Input>)
    ensures var at := SteerAt(entries, None);
            SteersAsMessages(entries)
            == if at < |entries| then [AsMessage(entries[at])] + SteersAsMessages(Without(entries, at)) else []
  {
    if entries != [] {
      TakingTheFirstSteerFirst(entries[1..]);
      if entries[0].Steer? {
        assert Without(entries, 0) == entries[1..];
      } else {
        var at := SteerAt(entries, None);
        if at < |entries| {
          assert Without(entries, at)[1..] == Without(entries[1..], at - 1);
        }
      }
    }
  }

  lemma {:induction false} InsertedInOrder(pending: seq<Pending>, ahead: nat, message: Pending, later: seq<Pending>)
    requires ahead <= |pending|
    ensures var queued := pending[..ahead] + [message] + pending[ahead..];
            queued[..ahead + 1] + later + queued[ahead + 1..] == pending[..ahead] + ([message] + later) + pending[ahead..]
  {
    var queued := pending[..ahead] + [message] + pending[ahead..];
    assert queued[..ahead + 1] == pending[..ahead] + [message];
    assert queued[ahead + 1..] == pending[ahead..];
  }

  /** The steers go into the queue in the order they arrived, and none is left among the inputs. */
  lemma {:induction false} QueuedSteersKeepTheirOrder(c: Core, ahead: nat)
    requires ahead <= |c.pending|
    ensures SteersQueued(c, ahead).pending
            == c.pending[..ahead] + SteersAsMessages(c.inputs.entries) + c.pending[ahead..]
    ensures !HasSteer(SteersQueued(c, ahead).inputs.entries)
    decreases |c.inputs.entries|
  {
    TakingTheFirstSteerFirst(c.inputs.entries);
    var at := SteerAt(c.inputs.entries, None);
    if at < |c.inputs.entries| {
      var message := AsMessage(c.inputs.entries[at]);
      TheFirstSteerIsQueuedNext(c, ahead);
      var queued := c.pending[..ahead] + [message] + c.pending[ahead..];
      var moved := c.(inputs := Happened(c.inputs, TakesFirstSteer), pending := queued);
      QueuedSteersKeepTheirOrder(moved, ahead + 1);
      InsertedInOrder(c.pending, ahead, message, SteersAsMessages(moved.inputs.entries));
    } else {
      assert c.pending[..ahead] + [] + c.pending[ahead..] == c.pending;
    }
  }

  lemma {:induction false} StartingNextKeepsMessages(c: Core, seen: set<nat>, next: nat, p: Pattern)
    requires !c.activity.Running?
    ensures Places(StartNext(c, seen, next), p) == Places(c, p)
  {
    if c.disposing {
      QueuingSteersKeepsMessages(c, 0, p);
    } else if !(c.pending != [] && c.pending[0].kind.Send?) && HasSteer(c.inputs.entries) {
      StartingTheFirstSteer(c, p);
    } else if c.pending != [] {
      StartingTheFirstAction(c, p);
    } else if !WantsContinuation(c) {
      var idle := c.(activity := Idle);
      if !(c.held || !FailedTurnHolds(idle) || LastTurn(c.transcript).None?) {
        WritingInputsKeepsMessages(idle, LastTurn(c.transcript).value, Everything, seen, next, p);
      }
    }
  }

  lemma {:induction false} PushingAddsItsMessage(
      c: Core, kind: ActionKind, turn: TurnId, seen: set<nat>, next: nat, p: Pattern)
    ensures Places(Pushed(c, kind, turn, seen, next), p) == Places(c, p) + One(SendFits(Pending(kind, turn), p))
  {
    SendsInBoth(c.pending, [Pending(kind, turn)], p);
    OneAction(Pending(kind, turn), p);
    if c.activity.Idle? {
      StartingNextKeepsMessages(c.(pending := c.pending + [Pending(kind, turn)]), seen, next, p);
    }
  }

  lemma {:induction false} WakingKeepsMessages(c: Core, seen: set<nat>, next: nat, p: Pattern)
    ensures Places(Woken(c, seen, next), p) == Places(c, p)
  {
    if c.activity.Idle? && c.pending == [] {
      StartingNextKeepsMessages(c, seen, next, p);
    }
  }

  lemma {:induction false} AddingAnInput(q: Queue, input: Input, p: Pattern)
    ensures SteerTimes(Added(q, input).entries, p) == SteerTimes(q.entries, p) + One(SteerFits(input, p))
  {
    SteersInBoth(q.entries, [input], p);
    OneInput(input, p);
  }

  lemma {:induction false} WritingTheMessageKeepsIt(c: Core, next: BlockId, p: Pattern)
    requires c.activity.Running? && c.activity.run.kind.Send? && c.activity.run.unwritten
    ensures Places(MessageWritten(c, next), p) == Places(c, p)
  {
    var run := c.activity.run;
    BlocksWithOneMore(c.transcript, Block(next, User(run.turn), None, run.kind.content), p);
  }

  lemma {:induction false} SettlingTheUnwrittenKeepsIt(c: Core, reason: Reason, next: BlockId, p: Pattern)
    requires c.activity.Running? && (c.activity.run.unwritten ==> c.activity.run.kind.Send? && !reason.Shutdown?)
    ensures Places(UnwrittenSettled(c, reason, next), p) == Places(c, p)
  {
    var run := c.activity.run;
    if run.unwritten {
      if reason.Stop? {
        WritingTheMessageKeepsIt(c, next, p);
      } else {
        SendsInBoth([Pending(run.kind, run.turn)], c.pending, p);
        OneAction(Pending(run.kind, run.turn), p);
      }
    }
  }

  lemma {:induction false} AbortingCallsKeepsMessages(c: Core, p: Pattern)
    ensures Places(CallsAborted(c), p) == Places(c, p)
  {
    SettledCallsAreNoMessages(c.transcript, AllSettled(c.transcript), p);
  }

  lemma {:induction false} WritingOneBlock(c: Core, block: Block, p: Pattern)
    ensures Places(Wrote(c, c.transcript + [block]), p) == Places(c, p) + One(BlockFits(block, p))
  {
    BlocksWithOneMore(c.transcript, block, p);
    WritingBlocks(c, c.transcript + [block], p);
  }

  lemma {:induction false} MarkingKeepsMessages(
      c: Core, reason: Reason, givingBack: bool, began: bool, next: BlockId, p: Pattern)
    ensures Places(Marked(c, reason, givingBack, began, next), p) == Places(c, p)
  {
    WritingOneBlock(c, Block(next, Error(false, true), None, 0), p);
    WritingOneBlock(c, Block(next, Abort(false), None, 0), p);
  }

  /** What a give-back takes: the message that was not written, or what was written from it on. */
  function GivenBackTimes(c: Core, p: Pattern): nat
    requires c.activity.Running?
  {
    if c.activity.run.unwritten then RunTimes(c.activity, p)
    else
      var at := UserBlockAt(c.transcript, c.activity.run.turn);
      if at.Some? then BlockTimes(c.transcript[at.value..], p) else 0
  }

  lemma {:induction false} GivingBackTakesTheMessage(c: Core, p: Pattern)
    requires c.activity.Running?
    ensures Places(GivenBack(c), p) + GivenBackTimes(c, p) == Places(c, p)
  {
    var at := UserBlockAt(c.transcript, c.activity.run.turn);
    if !c.activity.run.unwritten && at.Some? {
      assert c.transcript == c.transcript[..at.value] + c.transcript[at.value..];
      BlocksInBoth(c.transcript[..at.value], c.transcript[at.value..], p);
    }
  }

  lemma {:induction false} RecordingAStopKeepsMessages(c: Core, reason: Reason, seen: set<nat>, next: nat, p: Pattern)
    requires c.activity.Running? && (c.activity.run.unwritten ==> c.activity.run.kind.Send? && !reason.Shutdown?)
    ensures Places(StopRecorded(c, reason, seen, next), p)
            + (if reason.Stop? && c.activity.run.givingBack then GivenBackTimes(c, p) else 0)
            == Places(c, p)
  {
    GivingBackTakesTheMessage(c, p);
    var given := if reason.Stop? && c.activity.run.givingBack then GivenBack(c) else c;
    SettlingTheUnwrittenKeepsIt(given, reason, next, p);
    var settled := UnwrittenSettled(given, reason, next);
    WritingInputsKeepsMessages(settled, settled.activity.run.turn, AllButSteers, seen, next, p);
    var written := StopWritten(c, reason, seen, next);
    AbortingCallsKeepsMessages(written, p);
    MarkingKeepsMessages(CallsAborted(written), reason, c.activity.run.givingBack, written.activity.run.began, next, p);
  }

  /** The message of a running action that began is written; of one that did not, it is not. */
  ghost predicate MessageInItsPlace(run: Run) {
    && (run.unwritten ==> run.kind.Send?)
    && (run.kind.Send? && !run.concluded ==> run.unwritten == !run.began)
  }
}
