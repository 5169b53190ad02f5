/**
 Where each agent's message and each command report is, over every run of a session
 (crates/agent-session/src/core.rs, input.rs): it waits, or a boundary wrote it, or its end was seen.
 */
module ArrivedInputs {
  import opened Wrappers
  import opened Blocks
  import opened Inputs
  import opened SessionCores
  import opened Conservation
  import opened SessionRuns
  import opened MessageRuns

  /** An agent's message, or what a report tells. */
  datatype Arrival = OfAgent(id: MessageId, content: nat) | OfReport(event: ReportEvent)

  predicate Is(input: Input, a: Arrival) {
    match input
    case Agent(id, content) => a == OfAgent(id, content)
    case Report(_, event, _) => a == OfReport(event)
    case Steer(_, _) => false
  }

  function Waiting(entries: seq<Input>, a: Arrival): nat {
    if entries == [] then 0 else Waiting(entries[..|entries| - 1], a) + One(Is(entries[|entries| - 1], a))
  }

  function Told(events: seq<ReportEvent>, a: Arrival): nat {
    if events == [] then 0 else Told(events[..|events| - 1], a) + One(OfReport(events[|events| - 1]) == a)
  }

  function InBlock(block: Block, a: Arrival): nat {
    match block.body
    case AgentMessage(_, event) => One(event.Message? && a == OfAgent(block.id, block.content))
    case Wakeup(_, _, reports) => Told(reports, a)
    case _ => 0
  }

  function InBlocks(blocks: seq<Block>, a: Arrival): nat {
    if blocks == [] then 0 else InBlocks(blocks[..|blocks| - 1], a) + InBlock(blocks[|blocks| - 1], a)
  }

  /** How often it waits or is written. */
  function Kept(c: Core, a: Arrival): nat {
    Waiting(c.inputs.entries, a) + InBlocks(c.transcript, a)
  }

  lemma {:induction false} WaitingInBoth(x: seq<Input>, y: seq<Input>, a: Arrival)
    ensures Waiting(x + y, a) == Waiting(x, a) + Waiting(y, a)
  {
    if y == [] {
      assert x + y == x;
    } else {
      assert (x + y)[..|x + y| - 1] == x + y[..|y| - 1];
      WaitingInBoth(x, y[..|y| - 1], a);
    }
  }

  lemma {:induction false} InBothBlocks(x: seq<Block>, y: seq<Block>, a: Arrival)
    ensures InBlocks(x + y, a) == InBlocks(x, a) + InBlocks(y, a)
  {
    if y == [] {
      assert x + y == x;
    } else {
      assert (x + y)[..|x + y| - 1] == x + y[..|y| - 1];
      InBothBlocks(x, y[..|y| - 1], a);
    }
  }

  lemma {:induction false} OneWaits(input: Input, a: Arrival)
    ensures Waiting([input], a) == One(Is(input, a))
  {
    assert [input][..0] == [];
  }

  lemma {:induction false} InOneBlock(block: Block, a: Arrival)
    ensures InBlocks([block], a) == InBlock(block, a)
  {
    assert [block][..0] == [];
  }

  lemma {:induction false} InOneBlockMore(blocks: seq<Block>, block: Block, a: Arrival)
    ensures InBlocks(blocks + [block], a) == InBlocks(blocks, a) + InBlock(block, a)
  {
    assert (blocks + [block])[..|blocks|] == blocks;
  }

  // What a boundary writes.

  lemma {:induction false} TakenAndLeft(entries: seq<Input>, take: Take, a: Arrival)
    ensures Waiting(Taken(entries, take), a) + Waiting(Left(entries, take), a) == Waiting(entries, a)
  {
    if entries != [] {
      var (before, last) := (entries[..|entries| - 1], entries[|entries| - 1]);
      TakenAndLeft(before, take, a);
      WaitingInBoth(Taken(before, take), [last], a);
      WaitingInBoth(Left(before, take), [last], a);
      OneWaits(last, a);
    }
  }

  lemma {:induction false} ReportsAndOthers(entries: seq<Input>, a: Arrival)
    ensures Waiting(Inputs.Reports(entries), a) + Waiting(WithoutReports(entries), a) == Waiting(entries, a)
    ensures Waiting(Inputs.Reports(entries), a) == if a.OfReport? then Waiting(entries, a) else 0
  {
    if entries != [] {
      var (before, last) := (entries[..|entries| - 1], entries[|entries| - 1]);
      ReportsAndOthers(before, a);
      WaitingInBoth(Inputs.Reports(before), [last], a);
      WaitingInBoth(WithoutReports(before), [last], a);
      OneWaits(last, a);
    }
  }

  lemma {:induction false} TheEventsTellTheReports(reports: seq<Input>, a: Arrival)
    requires forall k :: 0 <= k < |reports| ==> reports[k].Report?
    ensures Told(Events(reports), a) == Waiting(reports, a)
  {
    if reports != [] {
      var before := reports[..|reports| - 1];
      assert Events(reports)[..|reports| - 1] == Events(before);
      TheEventsTellTheReports(before, a);
    }
  }

  /** The blocks of the inputs hold each agent's message, and the reports once where the first of them is. */
  lemma {:induction false} WrittenInputsAreInBlocks(inputs: seq<Input>, turn: TurnId, reports: seq<Input>, next: BlockId,
                                                    a: Arrival)
    requires forall k :: 0 <= k < |reports| ==> reports[k].Report?
    ensures InBlocks(BlocksOf(inputs, turn, reports, next), a)
            == if a.OfAgent? then Waiting(inputs, a)
               else if exists k :: 0 <= k < |inputs| && inputs[k].Report? then Waiting(reports, a)
               else 0
    decreases |inputs|
  {
    if inputs != [] {
      var (first, rest) := (inputs[0], inputs[1..]);
      assert inputs == [first] + rest;
      WaitingInBoth([first], rest, a);
      OneWaits(first, a);
      assert forall k :: 0 <= k < |rest| ==> rest[k] == inputs[k + 1];
      if first.Report? {
        WrittenInputsAreInBlocks(rest, turn, [], next, a);
        AReportIsWritten(rest, turn, reports, next, a);
      } else {
        WrittenInputsAreInBlocks(rest, turn, reports, next, a);
        AMessageIsWritten(first, rest, turn, reports, next, a);
        assert (exists k :: 0 <= k < |inputs| && inputs[k].Report?) <==> exists k :: 0 <= k < |rest| && rest[k].Report?;
      }
    }
  }

  lemma {:induction false} AReportIsWritten(
      rest: seq<Input>, turn: TurnId, reports: seq<Input>, next: BlockId, a: Arrival)
    requires forall k :: 0 <= k < |reports| ==> reports[k].Report?
    ensures reports != [] ==>
              InBlocks([Block(next, Wakeup(turn, false, Events(reports)), None, 0)] + BlocksOf(rest, turn, [], next), a)
              == Waiting(reports, a) + InBlocks(BlocksOf(rest, turn, [], next), a)
    ensures a.OfAgent? ==> Waiting(reports, a) == 0
  {
    var block := Block(next, Wakeup(turn, false, Events(reports)), None, 0);
    TheEventsTellTheReports(reports, a);
    InBothBlocks([block], BlocksOf(rest, turn, [], next), a);
    InOneBlock(block, a);
    NoReportIsAnAgents(reports, a);
  }

  lemma {:induction false} NoReportIsAnAgents(reports: seq<Input>, a: Arrival)
    requires forall k :: 0 <= k < |reports| ==> reports[k].Report?
    ensures a.OfAgent? ==> Waiting(reports, a) == 0
  {
    if reports != [] {
      NoReportIsAnAgents(reports[..|reports| - 1], a);
    }
  }

  lemma {:induction false} AMessageIsWritten(
      first: Input, rest: seq<Input>, turn: TurnId, reports: seq<Input>, next: BlockId, a: Arrival)
    requires !first.Report? && forall k :: 0 <= k < |reports| ==> reports[k].Report?
    ensures InBlocks(BlocksOf([first] + rest, turn, reports, next), a)
            == One(Is(first, a)) + InBlocks(BlocksOf(rest, turn, reports, next), a)
  {
    assert ([first] + rest)[1..] == rest;
    var block := BlocksOf([first] + rest, turn, reports, next)[0];
    InBothBlocks([block], BlocksOf(rest, turn, reports, next), a);
    InOneBlock(block, a);
  }

  lemma {:induction false} TakenInputsAreInBlocks(taken: seq<Input>, turn: TurnId, next: BlockId, a: Arrival)
    ensures InBlocks(BlocksOf(taken, turn, Inputs.Reports(taken), next), a) == Waiting(taken, a)
  {
    WrittenInputsAreInBlocks(taken, turn, Inputs.Reports(taken), next, a);
    ReportsAndOthers(taken, a);
    if forall k :: 0 <= k < |taken| ==> !taken[k].Report? {
      NoReportWaits(taken, a);
    }
  }

  lemma {:induction false} NoReportWaits(entries: seq<Input>, a: Arrival)
    requires forall k :: 0 <= k < |entries| ==> !entries[k].Report?
    ensures a.OfReport? ==> Waiting(entries, a) == 0
  {
    if entries != [] {
      NoReportWaits(entries[..|entries| - 1], a);
    }
  }

  /** How many of those that wait are reports whose ends were seen. */
  function SeenTimes(entries: seq<Input>, seen: set<nat>, a: Arrival): nat {
    if entries == [] then 0
    else
      var last := entries[|entries| - 1];
      SeenTimes(entries[..|entries| - 1], seen, a) + One(Is(last, a) && last.Report? && last.number in seen)
  }

  lemma {:induction false} TheSeenGo(entries: seq<Input>, seen: set<nat>, a: Arrival)
    ensures Waiting(Unseen(entries, seen), a) + SeenTimes(entries, seen, a) == Waiting(entries, a)
    ensures a.OfAgent? ==> SeenTimes(entries, seen, a) == 0
  {
    if entries != [] {
      var (before, last) := (entries[..|entries| - 1], entries[|entries| - 1]);
      TheSeenGo(before, seen, a);
      WaitingInBoth(Unseen(before, seen), [last], a);
      OneWaits(last, a);
    }
  }

  /** It stays where it is or moves, but for the reports whose ends were seen, which may go. */
  ghost predicate Keeps(c: Core, after: Core, seen: set<nat>, a: Arrival) {
    Kept(after, a) == Kept(c, a) || Kept(after, a) + SeenTimes(c.inputs.entries, seen, a) == Kept(c, a)
  }

  lemma {:induction false} TakenInputsMove(
      entries: seq<Input>, take: Take, blocks: seq<Block>, turn: TurnId, next: nat, a: Arrival)
    ensures var taken := Taken(entries, take);
            Waiting(Left(entries, take), a) + InBlocks(blocks + BlocksOf(taken, turn, Inputs.Reports(taken), next), a)
            == Waiting(entries, a) + InBlocks(blocks, a)
    ensures Taken(entries, take) == [] ==> Waiting(Left(entries, take), a) == Waiting(entries, a)
  {
    var taken := Taken(entries, take);
    TakenAndLeft(entries, take, a);
    TakenInputsAreInBlocks(taken, turn, next, a);
    InBothBlocks(blocks, BlocksOf(taken, turn, Inputs.Reports(taken), next), a);
  }

  lemma {:induction false} WhatIsWrittenIs(c: Core, turn: TurnId, take: Take, seen: set<nat>, next: nat)
    ensures var (entries, after) := (Unseen(c.inputs.entries, seen), InputsWritten(c, turn, take, seen, next));
            var taken := Taken(entries, take);
            && after.inputs.entries == Left(entries, take)
            && after.transcript == if taken == [] then c.transcript
                                   else c.transcript + BlocksOf(taken, turn, Inputs.Reports(taken), next)
  {
  }

  lemma {:induction false} KeptAs(c: Core, entries: seq<Input>, blocks: seq<Block>, a: Arrival)
    requires c.inputs.entries == entries && c.transcript == blocks
    ensures Kept(c, a) == Waiting(entries, a) + InBlocks(blocks, a)
  {
  }

  lemma {:induction false} WritingInputsKeeps(c: Core, turn: TurnId, take: Take, seen: set<nat>, next: nat, a: Arrival)
    ensures var after := InputsWritten(c, turn, take, seen, next);
            Kept(after, a) + SeenTimes(c.inputs.entries, seen, a) == Kept(c, a)
  {
    var (entries, after) := (Unseen(c.inputs.entries, seen), InputsWritten(c, turn, take, seen, next));
    WhatIsWrittenIs(c, turn, take, seen, next);
    TheSeenGo(c.inputs.entries, seen, a);
    TakenInputsMove(entries, take, c.transcript, turn, next, a);
    KeptAs(after, Left(entries, take), after.transcript, a);
    KeptAs(c, c.inputs.entries, c.transcript, a);
  }

  lemma {:induction false} TheWakeupTellsTheReports(entries: seq<Input>, turn: TurnId, next: nat, a: Arrival)
    ensures var block := Block(next, Wakeup(turn, true, Events(Inputs.Reports(entries))), None, 0);
            InBlock(block, a) + Waiting(WithoutReports(entries), a) == Waiting(entries, a)
  {
    ReportsAndOthers(entries, a);
    TheEventsTellTheReports(Inputs.Reports(entries), a);
  }

  lemma {:induction false} TakingTheReportsKeeps(c: Core, next: nat, a: Arrival)
    requires c.activity.Running?
    ensures var block := Block(next, Wakeup(c.activity.run.turn, true, Events(Inputs.Reports(c.inputs.entries))), None, 0);
            Kept(Wrote(c.(inputs := Happened(c.inputs, TakesReports)), c.transcript + [block]), a) == Kept(c, a)
  {
    var block := Block(next, Wakeup(c.activity.run.turn, true, Events(Inputs.Reports(c.inputs.entries))), None, 0);
    TheWakeupTellsTheReports(c.inputs.entries, c.activity.run.turn, next, a);
    InOneBlockMore(c.transcript, block, a);
  }

  lemma {:induction false} OpeningAContinuationKeeps(c: Core, seen: set<nat>, next: nat, a: Arrival)
    requires c.activity.Running?
    ensures Kept(ContinuationOpened(c, seen, next), a) + SeenTimes(c.inputs.entries, seen, a) == Kept(c, a)
  {
    var unseen := c.(inputs := WithoutSeen(c.inputs, seen));
    TheSeenGo(c.inputs.entries, seen, a);
    assert Kept(unseen, a) + SeenTimes(c.inputs.entries, seen, a) == Kept(c, a);
    if Inputs.Reports(unseen.inputs.entries) != [] {
      TakingTheReportsKeeps(unseen, next, a);
    } else if HasAgentInput(unseen.inputs.entries) {
      WritingInputsKeeps(c, c.activity.run.turn, Everything, seen, next, a);
    }
  }

  // What starts next.

  lemma {:induction false} ASteerGoes(entries: seq<Input>, at: nat, a: Arrival)
    requires at < |entries| && entries[at].Steer?
    ensures Waiting(Without(entries, at), a) == Waiting(entries, a)
  {
    assert entries == entries[..at] + [entries[at]] + entries[at + 1..];
    WaitingInBoth(entries[..at] + [entries[at]], entries[at + 1..], a);
    WaitingInBoth(entries[..at], [entries[at]], a);
    WaitingInBoth(entries[..at], entries[at + 1..], a);
    OneWaits(entries[at], a);
  }

  lemma {:induction false} QueuingSteersKeeps(c: Core, ahead: nat, a: Arrival)
    requires ahead <= |c.pending|
    ensures Kept(SteersQueued(c, ahead), a) == Kept(c, a)
    decreases |c.inputs.entries|
  {
    var at := SteerAt(c.inputs.entries, None);
    if at < |c.inputs.entries| {
      ASteerGoes(c.inputs.entries, at, a);
      var message := AsMessage(c.inputs.entries[at]);
      QueuingSteersKeeps(c.(inputs := Happened(c.inputs, TakesFirstSteer),
                            pending := c.pending[..ahead] + [message] + c.pending[ahead..]),
                         ahead + 1, a);
    }
  }

  lemma {:induction false} SettlingIdleKeeps(c: Core, seen: set<nat>, next: nat, a: Arrival)
    ensures Keeps(c, WrittenIntoFailedTurn(c.(activity := Idle), seen, next), seen, a)
  {
    if LastTurn(c.transcript).Some? {
      WritingInputsKeeps(c.(activity := Idle), LastTurn(c.transcript).value, Everything, seen, next, a);
    }
  }

  lemma {:induction false} StartingKeeps(c: Core, kind: ActionKind, turn: TurnId, a: Arrival)
    ensures Kept(Started(c, kind, turn), a) == Kept(c, a)
  {
  }

  lemma {:induction false} StartingNextKeeps(c: Core, seen: set<nat>, next: nat, a: Arrival)
    ensures Keeps(c, StartNext(c, seen, next), seen, a)
  {
    var at := SteerAt(c.inputs.entries, None);
    if c.disposing {
      QueuingSteersKeeps(c, 0, a);
    } else if !(c.pending != [] && c.pending[0].kind.Send?) && at < |c.inputs.entries| {
      ASteerGoes(c.inputs.entries, at, a);
      var message := AsMessage(c.inputs.entries[at]);
      StartingKeeps(c.(inputs := Happened(c.inputs, TakesFirstSteer)), message.kind, message.turn, a);
    } else if c.pending != [] {
      StartingKeeps(c.(pending := c.pending[1..]), c.pending[0].kind, c.pending[0].turn, a);
    } else if WantsContinuation(c) {
      StartingKeeps(c, Continue, next, a);
    } else {
      SettlingIdleKeeps(c, seen, next, a);
    }
  }

  lemma {:induction false} PushingKeeps(c: Core, kind: ActionKind, turn: TurnId, seen: set<nat>, next: nat, a: Arrival)
    ensures Keeps(c, Pushed(c, kind, turn, seen, next), seen, a)
  {
    StartingNextKeeps(c.(pending := c.pending + [Pending(kind, turn)]), seen, next, a);
  }

  lemma {:induction false} WakingKeeps(c: Core, seen: set<nat>, next: nat, a: Arrival)
    ensures Keeps(c, Woken(c, seen, next), seen, a)
  {
    StartingNextKeeps(c, seen, next, a);
  }

  // A step.

  /** An agent's message under an id that nothing of the session has, or a report whose end was not seen. */
  predicate TakesIn(c: Core, e: Event, seen: set<nat>) {
    match e
    case SendsAgentMessage(id, _, _) => !Refuses(c) && !HoldsBlock(c.transcript, id) && !ContainsInput(c.inputs.entries, id)
    case Reports(report) => !c.disposing && report.Report? && report.number !in seen
    case _ => false
  }

  function Arrived(e: Event): Option<Input> {
    match e
    case SendsAgentMessage(id, content, _) => Some(Agent(id, content))
    case Reports(report) => Some(report)
    case _ => None
  }

  /** What comes: an input taken in, or what a block or a rewrite brings. */
  function Comes(c: Core, e: Event, seen: set<nat>, a: Arrival): nat {
    match e
    case Writes(block) => InBlock(block, a)
    case Rewrites(blocks) => InBlocks(blocks, a)
    case AcceptsEdit(blocks) => InBlocks(blocks, a)
    case SendsAgentMessage(id, content, _) => One(TakesIn(c, e, seen) && a == OfAgent(id, content))
    case Reports(report) => One(TakesIn(c, e, seen) && Is(report, a))
    case _ => 0
  }

  /** What goes: what a rewrite replaces, or a give-back cuts. */
  function Goes(c: Core, e: Event, a: Arrival): nat {
    match e
    case Rewrites(_) => InBlocks(c.transcript, a)
    case AcceptsEdit(_) => InBlocks(c.transcript, a)
    case RecordsStop => if GivesBack(c) then CutTimes(c, a) else 0
    case _ => 0
  }

  predicate GivesBack(c: Core) {
    c.activity.Running? && c.activity.run.cancel == Some(Stop) && c.activity.run.givingBack
  }

  function CutTimes(c: Core, a: Arrival): nat {
    if !c.activity.Running? || c.activity.run.unwritten then 0
    else
      var at := UserBlockAt(c.transcript, c.activity.run.turn);
      if at.Some? then InBlocks(c.transcript[at.value..], a) else 0
  }

  /** A step adds what comes, takes what goes, and keeps every other input, waiting or written, but that reports
      whose ends were seen may go. */
  ghost predicate IsKept(c: Core, e: Event, after: Core, seen: set<nat>, a: Arrival) {
    var gone := Goes(c, e, a);
    || Kept(after, a) + gone == Kept(c, a) + Comes(c, e, seen, a)
    || Kept(after, a) + gone + SeenTimes(c.inputs.entries, seen, a) == Kept(c, a) + Comes(c, e, seen, a)
  }

  lemma {:induction false} AddingOne(c: Core, input: Input, seen: set<nat>, a: Arrival)
    ensures Kept(c.(inputs := Added(c.inputs, input)), a) == Kept(c, a) + One(Is(input, a))
    ensures !(input.Report? && input.number in seen) ==>
              SeenTimes(Added(c.inputs, input).entries, seen, a) == SeenTimes(c.inputs.entries, seen, a)
  {
    assert (c.inputs.entries + [input])[..|c.inputs.entries|] == c.inputs.entries;
  }

  lemma {:induction false} AnAgentMessageIsTakenInExactlyWhen(
      c: Core, id: MessageId, content: nat, fromProduct: bool, seen: set<nat>, next: nat)
    ensures TakesIn(c, SendsAgentMessage(id, content, fromProduct), seen) ==>
              !Refuses(c) && AgentMessageOf(c, id).None?
    ensures !TakesIn(c, SendsAgentMessage(id, content, fromProduct), seen) ==>
              var after := AgentMessageAdmitted(c, id, content, fromProduct, seen, next);
              after == c || after == Woken(c, seen, next)
  {
    var waiting := WaitingAgentMessage(c.inputs.entries, id);
    if waiting.Some? {
      var k :| 0 <= k < |c.inputs.entries| && c.inputs.entries[k] == Agent(id, waiting.value);
      assert c.inputs.entries[k].id == id;
    }
  }

  lemma {:induction false} AnAgentMessageIsKept(
      c: Core, id: MessageId, content: nat, fromProduct: bool, seen: set<nat>, next: nat, a: Arrival)
    ensures IsKept(c, SendsAgentMessage(id, content, fromProduct),
                   AgentMessageAdmitted(c, id, content, fromProduct, seen, next), seen, a)
  {
    AnAgentMessageIsTakenInExactlyWhen(c, id, content, fromProduct, seen, next);
    var added := c.(inputs := Added(c.inputs, Agent(id, content)));
    AddingOne(c, Agent(id, content), seen, a);
    WakingKeeps(c, seen, next, a);
    WakingKeeps(added, seen, next, a);
  }

  lemma {:induction false} AReportIsKept(c: Core, report: Input, seen: set<nat>, next: nat, a: Arrival)
    requires report.Report?
    ensures IsKept(c, Event.Reports(report), ReportAdmitted(c, report, seen, next), seen, a)
  {
    var added := c.(inputs := Added(c.inputs, report));
    AddingOne(c, report, seen, a);
    WakingKeeps(added, seen, next, a);
  }

  lemma {:induction false} ASteerKeeps(c: Core, id: MessageId, content: nat, seen: set<nat>, next: nat, a: Arrival)
    ensures Keeps(c, Steered(c, id, content, seen, next), seen, a)
  {
    PushingKeeps(c, Send(content, false), id, seen, next, a);
    AddingOne(c, Input.Steer(id, content), seen, a);
  }

  lemma {:induction false} AMessageKeeps(
      c: Core, id: MessageId, content: nat, scheduled: bool, seen: set<nat>, next: nat, a: Arrival)
    ensures Keeps(c, MessageAdmitted(c, id, content, scheduled, seen, next), seen, a)
  {
    PushingKeeps(c, Send(content, scheduled), id, seen, next, a);
  }

  lemma {:induction false} AnActionKeeps(c: Core, kind: ActionKind, turn: TurnId, seen: set<nat>, next: nat, a: Arrival)
    ensures Keeps(c, ActionAdmitted(c, kind, turn, seen, next), seen, a)
    ensures Keeps(c, IdleCompactionAdmitted(c, turn, seen, next), seen, a)
  {
    PushingKeeps(c, kind, turn, seen, next, a);
    PushingKeeps(c, Compact(true), turn, seen, next, a);
  }

  lemma {:induction false} AnAdmissionKeeps(c: Core, e: Event, seen: set<nat>, next: nat, a: Arrival)
    requires Sound(c) && Enabled(c, e)
    requires e.SendsMessage? || e.AsksForAction? || e.AsksForEdit? || e.CompactsIdle? || e.Steers?
    ensures IsKept(c, e, Next(c, e, seen, next), seen, a)
  {
    match e
    case SendsMessage(id, content, scheduled) => AMessageKeeps(c, id, content, scheduled, seen, next, a);
    case AsksForAction(kind, turn) => AnActionKeeps(c, kind, turn, seen, next, a);
    case AsksForEdit(turn) => PushingKeeps(c.(preparing := true), Edit, turn, seen, next, a);
    case CompactsIdle(turn) => AnActionKeeps(c, Compact(true), turn, seen, next, a);
    case Steers(id, content) => ASteerKeeps(c, id, content, seen, next, a);
  }

  lemma {:induction false} AWakingStepKeeps(c: Core, e: Event, seen: set<nat>, next: nat, a: Arrival)
    requires Sound(c) && Enabled(c, e) && (e.ReleasesInput? || e.PassesFailure?)
    ensures IsKept(c, e, Next(c, e, seen, next), seen, a)
  {
    match e
    case ReleasesInput => WakingKeeps(c.(held := false), seen, next, a);
    case PassesFailure(failure) => WakingKeeps(c.(passedFailure := Some(failure)), seen, next, a);
  }

  lemma {:induction false} CancellingASteerKeeps(c: Core, id: MessageId, a: Arrival)
    ensures Kept(c.(inputs := WithoutSteer(c.inputs, id)), a) == Kept(c, a)
  {
    var at := SteerAt(c.inputs.entries, Some(id));
    if at < |c.inputs.entries| { ASteerGoes(c.inputs.entries, at, a); }
  }

  lemma {:induction false} MovingMessagesKeeps(c: Core, id: MessageId, a: Arrival)
    ensures Kept(Dequeued(c, id), a) == Kept(c, a)
    ensures Kept(SentNext(c, id), a) == Kept(c, a)
    ensures Kept(QueueCleared(c), a) == Kept(c, a)
  {
  }

  lemma {:induction false} AWithdrawalKeeps(c: Core, e: Event, seen: set<nat>, next: nat, a: Arrival)
    requires Sound(c) && Enabled(c, e)
    requires e.CancelsSteer? || e.Dequeues? || e.SendsNext? || e.ClearsQueue?
    ensures IsKept(c, e, Next(c, e, seen, next), seen, a)
  {
    match e
    case CancelsSteer(id) => CancellingASteerKeeps(c, id, a);
    case Dequeues(id) => MovingMessagesKeeps(c, id, a);
    case SendsNext(id) => MovingMessagesKeeps(c, id, a);
    case ClearsQueue => MovingMessagesKeeps(c, 0, a);
  }

  /** The same inputs wait and the same blocks are written. */
  ghost predicate Untouched(c: Core, after: Core) {
    after.inputs == c.inputs && after.transcript == c.transcript
  }

  lemma {:induction false} StoppingTouchesNothing(c: Core, writing: bool, ofSchedule: bool, target: BlockId)
    ensures Untouched(c, Aborted(c, writing, ofSchedule))
    ensures Untouched(c, StoppedForHold(c)) && Untouched(c, StoppedForEdit(c, target))
    ensures Untouched(c, DisposeBegun(c))
  {
  }

  lemma {:induction false} AStopKeepsWhatWaits(c: Core, e: Event, seen: set<nat>, next: nat, a: Arrival)
    requires Sound(c) && Enabled(c, e)
    requires e.Aborts? || e.HoldsInput? || e.StopsForHold? || e.StopsForEdit? || e.Disposes?
    ensures IsKept(c, e, Next(c, e, seen, next), seen, a)
  {
    match e
    case Aborts(writing, ofSchedule) => StoppingTouchesNothing(c, writing, ofSchedule, 0);
    case StopsForEdit(target) => StoppingTouchesNothing(c, false, false, target);
    case HoldsInput =>
    case StopsForHold => StoppingTouchesNothing(c, false, false, 0);
    case Disposes => StoppingTouchesNothing(c, false, false, 0);
  }

  // The worker's steps.

  lemma {:induction false} SettlingKeeps(blocks: seq<Block>, a: Arrival)
    ensures InBlocks(AllSettled(blocks), a) == InBlocks(blocks, a)
  {
    if blocks != [] {
      SettlingKeeps(blocks[..|blocks| - 1], a);
      assert AllSettled(blocks)[..|blocks| - 1] == AllSettled(blocks[..|blocks| - 1]);
    }
  }

  lemma {:induction false} AbortingCallsKeeps(c: Core, a: Arrival)
    ensures Kept(CallsAborted(c), a) == Kept(c, a)
  {
    SettlingKeeps(c.transcript, a);
  }

  lemma {:induction false} WritingAnotherKeeps(c: Core, block: Block, a: Arrival)
    requires InBlock(block, a) == 0
    ensures Kept(Wrote(c, c.transcript + [block]), a) == Kept(c, a)
  {
    InOneBlockMore(c.transcript, block, a);
  }

  lemma {:induction false} MarkingKeeps(
      c: Core, reason: Reason, givingBack: bool, began: bool, next: BlockId, a: Arrival)
    ensures Kept(Marked(c, reason, givingBack, began, next), a) == Kept(c, a)
  {
    if reason.Shutdown? {
      WritingAnotherKeeps(c, Block(next, Error(false, true), None, 0), a);
    } else {
      WritingAnotherKeeps(c, Block(next, Abort(false), None, 0), a);
    }
  }

  lemma {:induction false} GivingBackCuts(c: Core, a: Arrival)
    requires c.activity.Running?
    ensures Kept(GivenBack(c), a) + CutTimes(c, a) == Kept(c, a) && GivenBack(c).inputs == c.inputs
  {
    var at := UserBlockAt(c.transcript, c.activity.run.turn);
    if !c.activity.run.unwritten && at.Some? {
      assert c.transcript == c.transcript[..at.value] + c.transcript[at.value..];
      InBothBlocks(c.transcript[..at.value], c.transcript[at.value..], a);
    }
  }

  lemma {:induction false} SettlingTheUnwrittenKeeps(c: Core, reason: Reason, next: BlockId, a: Arrival)
    requires c.activity.Running? && (c.activity.run.unwritten ==> c.activity.run.kind.Send?)
    ensures var r := UnwrittenSettled(c, reason, next);
            Kept(r, a) == Kept(c, a) && r.inputs == c.inputs
  {
    if c.activity.run.unwritten {
      InOneBlockMore(c.transcript, Block(next, User(c.activity.run.turn), None, c.activity.run.kind.content), a);
    }
  }

  lemma {:induction false} WritingAStopKeeps(c: Core, reason: Reason, seen: set<nat>, next: nat, a: Arrival)
    requires c.activity.Running? && (c.activity.run.unwritten ==> c.activity.run.kind.Send?)
    ensures var gone := if reason.Stop? && c.activity.run.givingBack then CutTimes(c, a) else 0;
            Kept(StopWritten(c, reason, seen, next), a) + gone
            + (if reason.Shutdown? then 0 else SeenTimes(c.inputs.entries, seen, a)) == Kept(c, a)
  {
    GivingBackCuts(c, a);
    var given := if reason.Stop? && c.activity.run.givingBack then GivenBack(c) else c;
    SettlingTheUnwrittenKeeps(given, reason, next, a);
    var settled := UnwrittenSettled(given, reason, next);
    WritingInputsKeeps(settled, settled.activity.run.turn, AllButSteers, seen, next, a);
  }

  lemma {:induction false} RecordingAStopKeeps(c: Core, reason: Reason, seen: set<nat>, next: nat, a: Arrival)
    requires c.activity.Running? && (c.activity.run.unwritten ==> c.activity.run.kind.Send?)
    ensures var gone := if reason.Stop? && c.activity.run.givingBack then CutTimes(c, a) else 0;
            Kept(StopRecorded(c, reason, seen, next), a) + gone
            + (if reason.Shutdown? then 0 else SeenTimes(c.inputs.entries, seen, a)) == Kept(c, a)
  {
    WritingAStopKeeps(c, reason, seen, next, a);
    var written := StopWritten(c, reason, seen, next);
    AbortingCallsKeeps(written, a);
    MarkingKeeps(CallsAborted(written), reason, c.activity.run.givingBack, written.activity.run.began, next, a);
  }

  lemma {:induction false} ShuttingDownKeeps(c: Core, seen: set<nat>, next: nat, a: Arrival)
    requires c.activity.Running? && (c.activity.run.unwritten ==> c.activity.run.kind.Send?)
    ensures Kept(ShutDown(c, seen, next), a) == Kept(c, a)
  {
    var run := c.activity.run;
    var rejected := c.(preparing := false);
    if run.began { RecordingAStopKeeps(rejected, Shutdown, seen, next, a); }
    var stopped := if run.began then StopRecorded(rejected, Shutdown, seen, next)
                   else if run.kind.Send? then rejected.(pending := [Pending(run.kind, run.turn)] + c.pending)
                   else rejected;
    QueuingSteersKeeps(stopped, if !run.began && run.kind.Send? then 1 else 0, a);
  }

  lemma {:induction false} InsertingKeeps(blocks: seq<Block>, at: nat, block: Block, a: Arrival)
    requires at <= |blocks| && InBlock(block, a) == 0
    ensures InBlocks(blocks[..at] + [block] + blocks[at..], a) == InBlocks(blocks, a)
  {
    assert blocks == blocks[..at] + blocks[at..];
    InBothBlocks(blocks[..at], blocks[at..], a);
    InBothBlocks(blocks[..at] + [block], blocks[at..], a);
    InOneBlockMore(blocks[..at], block, a);
  }

  lemma {:induction false} ChangingOneKeeps(blocks: seq<Block>, at: nat, block: Block, a: Arrival)
    requires at < |blocks| && InBlock(block, a) == InBlock(blocks[at], a)
    ensures InBlocks(blocks[at := block], a) == InBlocks(blocks, a)
  {
    assert blocks == blocks[..at] + [blocks[at]] + blocks[at + 1..];
    assert blocks[at := block] == blocks[..at] + [block] + blocks[at + 1..];
    InBothBlocks(blocks[..at] + [blocks[at]], blocks[at + 1..], a);
    InBothBlocks(blocks[..at] + [block], blocks[at + 1..], a);
    InOneBlockMore(blocks[..at], block, a);
    InOneBlockMore(blocks[..at], blocks[at], a);
  }

  lemma {:induction false} ABlockIsWritten(c: Core, e: Event, seen: set<nat>, next: nat, a: Arrival)
    requires Sound(c) && Enabled(c, e) && (e.WritesMessage? || e.Writes?)
    ensures IsKept(c, e, Next(c, e, seen, next), seen, a)
  {
    if e.WritesMessage? {
      InOneBlockMore(c.transcript, Block(next, User(c.activity.run.turn), None, c.activity.run.kind.content), a);
    } else {
      InOneBlockMore(c.transcript, e.block, a);
    }
  }

  lemma {:induction false} AnInsertKeeps(c: Core, at: nat, block: Block, seen: set<nat>, next: nat, a: Arrival)
    requires Sound(c) && Enabled(c, Inserts(at, block))
    ensures IsKept(c, Inserts(at, block), Next(c, Inserts(at, block), seen, next), seen, a)
  {
    InsertingKeeps(c.transcript, at, block, a);
  }

  lemma {:induction false} ACompletionKeeps(c: Core, at: nat, seen: set<nat>, next: nat, a: Arrival)
    requires Sound(c) && Enabled(c, CompletesCall(at))
    ensures IsKept(c, CompletesCall(at), Next(c, CompletesCall(at), seen, next), seen, a)
  {
    ChangingOneKeeps(c.transcript, at, Settled(c.transcript[at]), a);
  }

  lemma {:induction false} ARewriteBrings(c: Core, e: Event, seen: set<nat>, next: nat, a: Arrival)
    requires Sound(c) && Enabled(c, e) && (e.Rewrites? || e.AcceptsEdit?)
    ensures IsKept(c, e, Next(c, e, seen, next), seen, a)
  {
    assert Next(c, e, seen, next).inputs == c.inputs && Next(c, e, seen, next).transcript == e.blocks;
  }

  lemma {:induction false} AnInputIsWritten(c: Core, e: Event, seen: set<nat>, next: nat, a: Arrival)
    requires Sound(c) && Enabled(c, e) && (e.OpensContinuation? || e.WritesInputs?)
    ensures IsKept(c, e, Next(c, e, seen, next), seen, a)
  {
    if e.OpensContinuation? {
      OpeningAContinuationKeeps(c, seen, next, a);
    } else {
      WritingInputsKeeps(c, c.activity.run.turn, e.take, seen, next, a);
    }
  }

  lemma {:induction false} FailingKeeps(c: Core, seen: set<nat>, next: nat, a: Arrival)
    requires c.activity.Running?
    ensures Kept(Concluded(Failed(c, seen, next)), a) + SeenTimes(c.inputs.entries, seen, a) == Kept(c, a)
  {
    WritingInputsKeeps(c, c.activity.run.turn, AllButSteers, seen, next, a);
    AbortingCallsKeeps(InputsWritten(c, c.activity.run.turn, AllButSteers, seen, next), a);
    FailingIsThat(c, seen, next);
    ConcludingKeeps(Failed(c, seen, next), a);
  }

  lemma {:induction false} FailingIsThat(c: Core, seen: set<nat>, next: nat)
    requires c.activity.Running?
    ensures Failed(c, seen, next) == CallsAborted(InputsWritten(c, c.activity.run.turn, AllButSteers, seen, next))
  {
  }

  lemma {:induction false} AFailureKeeps(c: Core, seen: set<nat>, next: nat, a: Arrival)
    requires Sound(c) && Enabled(c, Fails)
    ensures IsKept(c, Fails, Next(c, Fails, seen, next), seen, a)
  {
    FailingKeeps(c, seen, next, a);
  }

  lemma {:induction false} ConcludingKeeps(c: Core, a: Arrival)
    ensures Kept(Concluded(c), a) == Kept(c, a)
  {
  }

  lemma {:induction false} ARecordedStopIs(c: Core, seen: set<nat>, next: nat)
    requires Sound(c) && Enabled(c, RecordsStop)
    ensures Next(c, RecordsStop, seen, next) == Concluded(StopRecorded(c, c.activity.run.cancel.value, seen, next))
  {
  }

  lemma {:induction false} AStopKeeps(c: Core, seen: set<nat>, next: nat, a: Arrival)
    requires Sound(c) && Enabled(c, RecordsStop)
    ensures IsKept(c, RecordsStop, Next(c, RecordsStop, seen, next), seen, a)
  {
    var reason := c.activity.run.cancel.value;
    ARecordedStopIs(c, seen, next);
    RecordingAStopKeeps(c, reason, seen, next, a);
    ConcludingKeeps(StopRecorded(c, reason, seen, next), a);
  }

  lemma {:induction false} AStepOfTheWorkerKeeps(c: Core, e: Event, seen: set<nat>, next: nat, a: Arrival)
    requires Sound(c) && Enabled(c, e) && !IsFromOutside(e)
    ensures IsKept(c, e, Next(c, e, seen, next), seen, a)
  {
    if e.WritesMessage? || e.Writes? {
      ABlockIsWritten(c, e, seen, next, a);
    } else if e.Inserts? {
      AnInsertKeeps(c, e.at, e.block, seen, next, a);
    } else if e.CompletesCall? {
      ACompletionKeeps(c, e.at, seen, next, a);
    } else if e.Rewrites? || e.AcceptsEdit? {
      ARewriteBrings(c, e, seen, next, a);
    } else if e.OpensContinuation? || e.WritesInputs? {
      AnInputIsWritten(c, e, seen, next, a);
    } else if e.Fails? {
      AFailureKeeps(c, seen, next, a);
    } else if e.RecordsStop? {
      AStopKeeps(c, seen, next, a);
    } else if e.ShutsDown? {
      ShuttingDownKeeps(c, seen, next, a);
    } else if e.StartsNext? {
      StartingNextKeeps(c, seen, next, a);
    }
  }

  lemma {:induction false} AStepFromOutsideKeeps(c: Core, e: Event, seen: set<nat>, next: nat, a: Arrival)
    requires Sound(c) && Enabled(c, e) && IsFromOutside(e)
    ensures IsKept(c, e, Next(c, e, seen, next), seen, a)
  {
    if e.SendsAgentMessage? {
      AnAgentMessageIsKept(c, e.id, e.content, e.fromProduct, seen, next, a);
    } else if e.Reports? {
      AReportIsKept(c, e.report, seen, next, a);
    } else if e.SendsMessage? || e.AsksForAction? || e.AsksForEdit? || e.CompactsIdle? || e.Steers? {
      AnAdmissionKeeps(c, e, seen, next, a);
    } else if e.ReleasesInput? || e.PassesFailure? {
      AWakingStepKeeps(c, e, seen, next, a);
    } else if e.CancelsSteer? || e.Dequeues? || e.SendsNext? || e.ClearsQueue? {
      AWithdrawalKeeps(c, e, seen, next, a);
    } else {
      AStopKeepsWhatWaits(c, e, seen, next, a);
    }
  }

  /** No step loses an agent's message or a report. */
  lemma {:induction false} EveryStepKeepsInputs(c: Core, e: Event, seen: set<nat>, next: nat, a: Arrival)
    requires Sound(c) && Enabled(c, e)
    ensures IsKept(c, e, Next(c, e, seen, next), seen, a)
  {
    if IsFromOutside(e) {
      AStepFromOutsideKeeps(c, e, seen, next, a);
    } else {
      AStepOfTheWorkerKeeps(c, e, seen, next, a);
    }
  }

  // Runs.

  ghost function AllCome(c: Core, run: seq<Occurrence>, a: Arrival): nat
    requires Sound(c) && Occurs(c, run)
    decreases |run|
  {
    if run == [] then 0
    else
      EveryStepIsSound(c, run[0].event, run[0].seen, run[0].next);
      Comes(c, run[0].event, run[0].seen, a) + AllCome(Next(c, run[0].event, run[0].seen, run[0].next), run[1..], a)
  }

  ghost function AllGo(c: Core, run: seq<Occurrence>, a: Arrival): nat
    requires Sound(c) && Occurs(c, run)
    decreases |run|
  {
    if run == [] then 0
    else
      EveryStepIsSound(c, run[0].event, run[0].seen, run[0].next);
      Goes(c, run[0].event, a) + AllGo(Next(c, run[0].event, run[0].seen, run[0].next), run[1..], a)
  }

  /** How many reports waited with their ends seen, step by step. */
  ghost function AllSeen(c: Core, run: seq<Occurrence>, a: Arrival): nat
    requires Sound(c) && Occurs(c, run)
    decreases |run|
  {
    if run == [] then 0
    else
      EveryStepIsSound(c, run[0].event, run[0].seen, run[0].next);
      SeenTimes(c.inputs.entries, run[0].seen, a)
      + AllSeen(Next(c, run[0].event, run[0].seen, run[0].next), run[1..], a)
  }

  /** Over every run an agent's message, and a report, waits or is written as often as it came less how often a
      rewrite or a give-back took it out; only reports whose ends were seen are withdrawn. */
  lemma {:induction false} EveryRunKeepsInputs(c: Core, run: seq<Occurrence>, a: Arrival) returns (withdrawn: nat)
    requires Sound(c) && Occurs(c, run)
    ensures Kept(After(c, run), a) + AllGo(c, run, a) + withdrawn == Kept(c, a) + AllCome(c, run, a)
    ensures withdrawn <= AllSeen(c, run, a) && (a.OfAgent? ==> withdrawn == 0)
    decreases |run|
  {
    withdrawn := 0;
    if run != [] {
      var (e, seen, next) := (run[0].event, run[0].seen, run[0].next);
      EveryStepIsSound(c, e, seen, next);
      EveryStepKeepsInputs(c, e, seen, next, a);
      TheSeenGo(c.inputs.entries, seen, a);
      var after := Next(c, e, seen, next);
      withdrawn := EveryRunKeepsInputs(after, run[1..], a);
      if Kept(after, a) + Goes(c, e, a) != Kept(c, a) + Comes(c, e, seen, a) {
        withdrawn := withdrawn + SeenTimes(c.inputs.entries, seen, a);
      }
    }
  }

  /** An agent's message is taken in only when the session has it nowhere. */
  lemma {:induction false} AnAgentMessageIsTakenInOnce(c: Core, id: MessageId, content: nat, e: Event, seen: set<nat>)
    requires e.SendsAgentMessage? && e.id == id && TakesIn(c, e, seen)
    ensures Kept(c, OfAgent(id, content)) == 0
  {
    NoneWaits(c.inputs.entries, id, content);
    NoneIsWritten(c.transcript, id, content);
  }

  lemma {:induction false} NoneWaits(entries: seq<Input>, id: MessageId, content: nat)
    requires !ContainsInput(entries, id)
    ensures Waiting(entries, OfAgent(id, content)) == 0
  {
    if entries != [] {
      var before := entries[..|entries| - 1];
      assert forall k :: 0 <= k < |before| ==> before[k] == entries[k];
      NoneWaits(before, id, content);
    }
  }

  lemma {:induction false} NoneIsWritten(blocks: seq<Block>, id: MessageId, content: nat)
    requires !HoldsBlock(blocks, id)
    ensures InBlocks(blocks, OfAgent(id, content)) == 0
  {
    if blocks != [] {
      var before := blocks[..|blocks| - 1];
      assert forall k :: 0 <= k < |before| ==> before[k] == blocks[k];
      NoneIsWritten(before, id, content);
      NoAgentIsTold(blocks[|blocks| - 1], id, content);
    }
  }

  lemma {:induction false} NoAgentIsTold(block: Block, id: MessageId, content: nat)
    requires block.id != id
    ensures InBlock(block, OfAgent(id, content)) == 0
  {
    if block.body.Wakeup? { NoReportTellsOfAgents(block.body.reports, OfAgent(id, content)); }
  }

  lemma {:induction false} NoReportTellsOfAgents(events: seq<ReportEvent>, a: Arrival)
    requires a.OfAgent?
    ensures Told(events, a) == 0
  {
    if events != [] {
      NoReportTellsOfAgents(events[..|events| - 1], a);
    }
  }
}
