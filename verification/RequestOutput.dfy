/**
 What a provider's run writes into the transcript (crates/agent-session/src/core.rs, turn.rs and
 crates/agent-transcript/src/log.rs): most events append a block, and some write into one in place.
 */
module RequestOutputs {
  import opened Wrappers
  import opened Blocks
  import opened Runs

  /** How entries name their block: by an item of the request, or by a block written since it went. */
  datatype EntriesOf = Item(index: nat) | Written(index: nat)

  /** An event of a run that goes on. `Quiet` stands for those that write no block: a call being written,
      the account, the cache's lifetime and the usage ledger's. */
  datatype ProviderEvent =
    | ThinkingStart
    | ThinkingDelta
    | ThinkingSignature
    | OpaqueStep(reasoning: bool, callId: Option<nat>, running: bool)
    | TextDelta(blank: bool)
    | WholeCall(toolUseId: nat, toolName: nat)
    | UsageReported
    | AccountSwitched
    | Entries(of: EntriesOf)
    | Quiet
  {
    /** The kinds of event that end an open text before them. */
    predicate CompletesText() {
      !TextDelta? && !ThinkingSignature? && !Entries?
    }

    predicate IsReasoning() {
      ThinkingStart? || ThinkingDelta?
    }

    function Step(): Body
      requires OpaqueStep?
    {
      Opaque(reasoning, callId, running)
    }

    /** Appends a block where no block before takes the event. */
    predicate Appends() {
      !ThinkingSignature? && !Entries? && !Quiet?
    }
  }

  /** The transcript with the identities of the blocks the run wrote. */
  datatype Output = Output(blocks: seq<Block>, written: seq<BlockId>)

  // Which block an event writes into.

  function LastWhere(blocks: seq<Block>, fits: Block -> bool): (at: Option<nat>)
    ensures match at
            case Some(k) => k < |blocks| && fits(blocks[k]) && forall j :: k < j < |blocks| ==> !fits(blocks[j])
            case None => forall j :: 0 <= j < |blocks| ==> !fits(blocks[j])
  {
    if blocks == [] then None
    else if fits(blocks[|blocks| - 1]) then Some(|blocks| - 1)
    else LastWhere(blocks[..|blocks| - 1], fits)
  }

  /** Where the running turn's output starts: after the user's last message. */
  function TurnStart(blocks: seq<Block>): (start: nat)
    ensures start <= |blocks| && (start > 0 ==> blocks[start - 1].body.User?)
    ensures forall k :: start <= k < |blocks| ==> !blocks[k].body.User?
  {
    match LastWhere(blocks, (b: Block) => b.body.User?)
    case Some(at) => at + 1
    case None => 0
  }

  predicate IsStepOf(block: Block, callId: nat) {
    block.body.Opaque? && block.body.callId == Some(callId)
  }

  /** The turn's vendor step of that call. */
  function StepOf(blocks: seq<Block>, callId: Option<nat>): (at: Option<nat>)
    ensures match at
            case Some(k) =>
              && TurnStart(blocks) <= k < |blocks| && callId.Some? && IsStepOf(blocks[k], callId.value)
              && forall j :: k < j < |blocks| ==> !IsStepOf(blocks[j], callId.value)
            case None =>
              callId.Some? ==> forall j :: TurnStart(blocks) <= j < |blocks| ==> !IsStepOf(blocks[j], callId.value)
  {
    if callId.None? then None
    else
      match LastWhere(blocks, (b: Block) => IsStepOf(b, callId.value))
      case Some(at) => if TurnStart(blocks) <= at then Some(at) else None
      case None => None
  }

  function LastReasoning(blocks: seq<Block>): (at: Option<nat>)
    ensures match at
            case Some(k) =>
              k < |blocks| && blocks[k].body.Thinking? && forall j :: k < j < |blocks| ==> !blocks[j].body.Thinking?
            case None => forall j :: 0 <= j < |blocks| ==> !blocks[j].body.Thinking?
  {
    LastWhere(blocks, (b: Block) => b.body.Thinking?)
  }

  function PositionOf(blocks: seq<Block>, id: BlockId): (at: Option<nat>)
    ensures match at
            case Some(k) => k < |blocks| && blocks[k].id == id && forall j :: k < j < |blocks| ==> blocks[j].id != id
            case None => forall j :: 0 <= j < |blocks| ==> blocks[j].id != id
  {
    LastWhere(blocks, (b: Block) => b.id == id)
  }

  predicate EndsInOpenThinking(blocks: seq<Block>) {
    blocks != [] && blocks[|blocks| - 1].body == Body.Thinking(false)
  }

  predicate EndsInOpenText(blocks: seq<Block>) {
    blocks != [] && blocks[|blocks| - 1].body.Text? && !blocks[|blocks| - 1].body.complete
  }

  /** Text after a call that still executes stays open. */
  predicate TextCompletes(blocks: seq<Block>) {
    && EndsInOpenText(blocks)
    && forall k :: 0 <= k < |blocks| ==> !(blocks[k].body.ToolCall? && blocks[k].body.executing)
  }

  predicate HoldsEntries(block: Block) {
    !block.body.Abort? && !block.body.Response? && !block.body.Error? && !block.body.AccountSwitch?
    && !block.body.CompactionMarker?
  }

  // Writing.

  /** An identity no block of the path has. */
  function NewId(blocks: seq<Block>): (id: BlockId)
    ensures forall k :: 0 <= k < |blocks| ==> blocks[k].id < id
  {
    if blocks == [] then 0
    else
      var before := NewId(blocks[..|blocks| - 1]);
      var last := blocks[|blocks| - 1].id;
      if last < before then before else last + 1
  }

  function Append(output: Output, body: Body): Output {
    var block := Block(NewId(output.blocks), body, None, 0);
    var kept := body.Thinking? || body.Opaque? || body.Text? || body.ToolCall?;
    Output(Appended(output.blocks, block, true), output.written + if kept then [block.id] else [])
  }

  function WriteInto(output: Output, at: nat, body: Body): Output
    requires at < |output.blocks|
  {
    var block := output.blocks[at];
    output.(blocks := output.blocks[at := block.(body := body, content := block.content + 1)])
  }

  function CompleteTail(output: Output): Output {
    if TextCompletes(output.blocks) then
      var last := |output.blocks| - 1;
      WriteInto(output, last, output.blocks[last].body.(complete := true))
    else output
  }

  function KeepEntries(output: Output, items: seq<BlockId>, of: EntriesOf): Output {
    var named := match of
                 case Item(index) => if index < |items| then Some(items[index]) else None
                 case Written(index) => if index < |output.written| then Some(output.written[index]) else None;
    if named.None? then output
    else
      match PositionOf(output.blocks, named.value)
      case Some(at) =>
        if HoldsEntries(output.blocks[at]) then WriteInto(output, at, output.blocks[at].body) else output
      case None => output
  }

  function Apply(output: Output, event: ProviderEvent): Output {
    var blocks := output.blocks;
    var last := |blocks| - 1;
    match event
    case ThinkingStart => Append(output, Thinking(false))
    case ThinkingDelta =>
      if EndsInOpenThinking(blocks) then WriteInto(output, last, blocks[last].body) else Append(output, Thinking(false))
    case ThinkingSignature =>
      (match LastReasoning(blocks)
       case Some(at) => WriteInto(output, at, Thinking(true))
       case None => output)
    case OpaqueStep(_, callId, _) =>
      (match StepOf(blocks, callId)
       case Some(at) => WriteInto(output, at, event.Step())
       case None => Append(output, event.Step()))
    case TextDelta(blank) =>
      if EndsInOpenText(blocks) then WriteInto(output, last, Text(blocks[last].body.blank && blank, false))
      else Append(output, Text(blank, false))
    case WholeCall(toolUseId, toolName) => Append(output, ToolCall(toolUseId, toolName, true))
    case UsageReported => Append(output, Response)
    case AccountSwitched => Append(output, AccountSwitch)
    case Entries(_) => output
    case Quiet => output
  }

  function Take(output: Output, items: seq<BlockId>, event: ProviderEvent): Output {
    if event.Entries? then KeepEntries(output, items, event.of)
    else if event.CompletesText() then Apply(CompleteTail(output), event)
    else Apply(output, event)
  }

  /** What the run's events leave of a transcript, one after the other. */
  function Streamed(before: seq<Block>, items: seq<BlockId>, events: seq<ProviderEvent>): Output {
    if events == [] then Output(before, [])
    else Take(Streamed(before, items, events[..|events| - 1]), items, events[|events| - 1])
  }

  /** At the end of a request the turn's vendor steps that still run have failed. */
  function Settled(blocks: seq<Block>): (after: seq<Block>)
    ensures |after| == |blocks|
  {
    seq(|blocks|, k requires 0 <= k < |blocks| =>
      if TurnStart(blocks) <= k && RunsAStep(blocks[k]) then
        blocks[k].(body := blocks[k].body.(running := false), content := blocks[k].content + 1)
      else blocks[k])
  }

  predicate RunsAStep(block: Block) {
    block.body.Opaque? && block.body.running
  }

  /** The transcript once the request ended; the text at the end of a run that answered completes. */
  function AfterRequest(before: seq<Block>, items: seq<BlockId>, events: seq<ProviderEvent>, answered: bool): seq<Block> {
    var output := Streamed(before, items, events);
    Settled((if answered then CompleteTail(output) else output).blocks)
  }

  // What is written stays written.

  /** Each of the first blocks is there and as it was, or was written into. */
  ghost predicate Follows(before: seq<Block>, after: seq<Block>) {
    && |before| <= |after|
    && forall k :: 0 <= k < |before| ==> after[k] == before[k] || before[k].content < after[k].content
  }

  lemma {:induction false} ApplyingFollows(output: Output, event: ProviderEvent)
    ensures Follows(output.blocks, Apply(output, event).blocks)
  {
  }

  lemma {:induction false} TakingFollows(output: Output, items: seq<BlockId>, event: ProviderEvent)
    ensures Follows(output.blocks, Take(output, items, event).blocks)
  {
    ApplyingFollows(output, event);
    ApplyingFollows(CompleteTail(output), event);
  }

  lemma {:induction false} StreamingFollows(before: seq<Block>, items: seq<BlockId>, events: seq<ProviderEvent>, i: nat)
    requires i <= |events|
    ensures Follows(Streamed(before, items, events[..i]).blocks, Streamed(before, items, events).blocks)
  {
    if i == |events| {
      assert events[..i] == events;
    } else {
      var earlier := events[..|events| - 1];
      assert earlier[..i] == events[..i];
      StreamingFollows(before, items, earlier, i);
      TakingFollows(Streamed(before, items, earlier), items, events[|events| - 1]);
    }
  }

  /** Text that streams in goes on in one block, which is blank exactly when all of it is. */
  lemma {:induction false} StreamedTextIsOneBlock(before: seq<Block>, items: seq<BlockId>, deltas: seq<ProviderEvent>)
    requires deltas != [] && (forall k :: 0 <= k < |deltas| ==> deltas[k].TextDelta?) && !EndsInOpenText(before)
    ensures var after := Streamed(before, items, deltas).blocks;
            && |after| == |before| + 1 && after[..|before|] == before && after[|before|].body.Text?
            && !after[|before|].body.complete
            && (after[|before|].body.blank <==> forall k :: 0 <= k < |deltas| ==> deltas[k].blank)
  {
    var (earlier, last) := (deltas[..|deltas| - 1], deltas[|deltas| - 1]);
    assert forall k :: 0 <= k < |earlier| ==> earlier[k] == deltas[k];
    if earlier == [] {
      assert Streamed(before, items, deltas) == Take(Output(before, []), items, last);
    } else {
      StreamedTextIsOneBlock(before, items, earlier);
    }
  }

  lemma {:induction false} SettlingKeepsTexts(blocks: seq<Block>)
    ensures EndsInOpenText(Settled(blocks)) <==> EndsInOpenText(blocks)
  {
  }

  ghost predicate ACallRuns(blocks: seq<Block>) {
    exists k :: 0 <= k < |blocks| && blocks[k].body.ToolCall? && blocks[k].body.executing
  }

  lemma {:induction false} CompletingCompletes(output: Output)
    requires EndsInOpenText(output.blocks)
    ensures EndsInOpenText(CompleteTail(output).blocks) <==> ACallRuns(output.blocks)
  {
  }

  /** The text at the end of a run is complete exactly when the run answered and no call still executes. */
  lemma {:induction false} AnAnsweredTextIsComplete(
      before: seq<Block>, items: seq<BlockId>, events: seq<ProviderEvent>, answered: bool)
    requires EndsInOpenText(Streamed(before, items, events).blocks)
    ensures EndsInOpenText(AfterRequest(before, items, events, answered))
            <==> !answered || ACallRuns(Streamed(before, items, events).blocks)
  {
    var output := Streamed(before, items, events);
    CompletingCompletes(output);
    SettlingKeepsTexts((if answered then CompleteTail(output) else output).blocks);
  }

  predicate IsNamed(body: Body) {
    body.Thinking? || body.Opaque? || body.Text? || body.ToolCall?
  }

  /** The identities of the thinking, vendors' steps, texts and calls, in order. */
  function NamedIds(blocks: seq<Block>): seq<BlockId> {
    if blocks == [] then []
    else
      NamedIds(blocks[..|blocks| - 1]) + if IsNamed(blocks[|blocks| - 1].body) then [blocks[|blocks| - 1].id] else []
  }

  lemma {:induction false} WritingKeepsTheIds(blocks: seq<Block>, at: nat, block: Block)
    requires at < |blocks| && block.id == blocks[at].id && (IsNamed(block.body) <==> IsNamed(blocks[at].body))
    ensures NamedIds(blocks[at := block]) == NamedIds(blocks)
  {
    var before := blocks[..|blocks| - 1];
    if at < |before| {
      assert blocks[at := block][..|before|] == before[at := block];
      WritingKeepsTheIds(before, at, block);
    } else {
      assert blocks[at := block][..|before|] == before;
    }
  }

  /** `written` names what stands behind the first `from` blocks. */
  ghost predicate Names(output: Output, from: nat) {
    from <= |output.blocks| && output.written == NamedIds(output.blocks[from..])
  }

  lemma {:induction false} AppendingNames(output: Output, from: nat, body: Body)
    requires Names(output, from)
    ensures Names(Append(output, body), from)
  {
    var after := Append(output, body).blocks;
    assert after[from..][..|after[from..]| - 1] == output.blocks[from..];
  }

  lemma {:induction false} WritingIntoNames(output: Output, from: nat, at: nat, body: Body)
    requires Names(output, from) && at < |output.blocks| && (IsNamed(body) <==> IsNamed(output.blocks[at].body))
    ensures Names(WriteInto(output, at, body), from)
  {
    var after := WriteInto(output, at, body).blocks;
    if at < from {
      assert after[from..] == output.blocks[from..];
    } else {
      assert after[from..] == output.blocks[from..][at - from := after[at]];
      WritingKeepsTheIds(output.blocks[from..], at - from, after[at]);
    }
  }

  lemma {:induction false} CompletingNames(output: Output, from: nat)
    requires Names(output, from)
    ensures Names(CompleteTail(output), from)
  {
    if TextCompletes(output.blocks) {
      var last := |output.blocks| - 1;
      WritingIntoNames(output, from, last, output.blocks[last].body.(complete := true));
    }
  }

  lemma {:induction false} KeepingNames(output: Output, items: seq<BlockId>, of: EntriesOf, from: nat)
    requires Names(output, from)
    ensures Names(KeepEntries(output, items, of), from)
  {
    var named := match of
                 case Item(index) => if index < |items| then Some(items[index]) else None
                 case Written(index) => if index < |output.written| then Some(output.written[index]) else None;
    if named.Some? && PositionOf(output.blocks, named.value).Some? {
      var at := PositionOf(output.blocks, named.value).value;
      WritingIntoNames(output, from, at, output.blocks[at].body);
    }
  }

  lemma {:induction false} ApplyingNames(output: Output, event: ProviderEvent, from: nat)
    requires Names(output, from)
    ensures Names(Apply(output, event), from)
  {
    var (blocks, last) := (output.blocks, |output.blocks| - 1);
    match event
    case ThinkingStart => AppendingNames(output, from, Thinking(false));
    case ThinkingDelta =>
      AppendingNames(output, from, Thinking(false));
      if EndsInOpenThinking(blocks) { WritingIntoNames(output, from, last, blocks[last].body); }
    case ThinkingSignature =>
      if LastReasoning(blocks).Some? { WritingIntoNames(output, from, LastReasoning(blocks).value, Thinking(true)); }
    case OpaqueStep(_, callId, _) =>
      AppendingNames(output, from, event.Step());
      if StepOf(blocks, callId).Some? { WritingIntoNames(output, from, StepOf(blocks, callId).value, event.Step()); }
    case TextDelta(blank) =>
      AppendingNames(output, from, Text(blank, false));
      if EndsInOpenText(blocks) { WritingIntoNames(output, from, last, Text(blocks[last].body.blank && blank, false)); }
    case WholeCall(toolUseId, toolName) => AppendingNames(output, from, ToolCall(toolUseId, toolName, true));
    case UsageReported => AppendingNames(output, from, Response);
    case AccountSwitched => AppendingNames(output, from, AccountSwitch);
    case _ =>
  }

  /** A run names the thinking, steps, texts and calls it wrote, in the order they stand, whatever it wrote into. */
  lemma {:induction false} ARunNamesWhatItWrote(before: seq<Block>, items: seq<BlockId>, events: seq<ProviderEvent>)
    ensures Names(Streamed(before, items, events), |before|)
  {
    if events == [] {
      assert before[|before|..] == [];
    } else {
      var (earlier, event) := (events[..|events| - 1], events[|events| - 1]);
      var output := Streamed(before, items, earlier);
      ARunNamesWhatItWrote(before, items, earlier);
      if event.Entries? {
        KeepingNames(output, items, event.of, |before|);
      } else {
        CompletingNames(output, |before|);
        ApplyingNames(output, event, |before|);
        ApplyingNames(CompleteTail(output), event, |before|);
      }
    }
  }

  // Which events write into a block that was there before the request.

  /** The step of a vendor's call of this turn is there. */
  predicate HoldsStep(before: seq<Block>, callId: Option<nat>) {
    StepOf(before, callId).Some?
  }

  predicate HoldsReasoning(before: seq<Block>) {
    exists k :: 0 <= k < |before| && before[k].body.Thinking?
  }

  predicate TakesEntries(before: seq<Block>, id: BlockId) {
    match PositionOf(before, id)
    case Some(at) => IsOfATurn(before[at])
    case None => false
  }

  /** A turn's input and output, and a compaction's boundary, hold entries. */
  predicate IsOfATurn(block: Block) {
    match block.body
    case User(_) | Context(_) | Wakeup(_, _, _) | Steer(_) | AgentMessage(_, _) | Resume(_) => true
    case Thinking(_) | Opaque(_, _, _) | Text(_, _) | ToolCall(_, _, _) | CompactionBoundary => true
    case Abort(_) | Response | Error(_, _) | AccountSwitch | CompactionMarker => false
  }

  /** Nothing was appended yet, so that the last block before the request is still the last. */
  predicate NothingAppended(earlier: seq<ProviderEvent>) {
    forall j :: 0 <= j < |earlier| ==> !earlier[j].Appends()
  }

  /** `event`, after the events `earlier`, names a block that stood before the request: a vendor's step of
      this turn by its call, the last reasoning by a signature, an open last reasoning or text by what
      continues or completes it, or the block of an item of the request by entries. */
  predicate NamesABlockBefore(
      before: seq<Block>, items: seq<BlockId>, earlier: seq<ProviderEvent>, event: ProviderEvent) {
    || (event.OpaqueStep? && HoldsStep(before, event.callId))
    || (event.ThinkingSignature? && HoldsReasoning(before)
        && forall j :: 0 <= j < |earlier| ==> !earlier[j].IsReasoning())
    || (event.ThinkingDelta? && EndsInOpenThinking(before) && NothingAppended(earlier))
    || (event.TextDelta? && EndsInOpenText(before) && NothingAppended(earlier))
    || (event.CompletesText() && TextCompletes(before) && NothingAppended(earlier))
    || (event.Entries? && event.of.Item? && event.of.index < |items| && TakesEntries(before, items[event.of.index]))
  }

  /** Some event of the request names a block before it, or a vendor's step of the turn still ran. */
  ghost predicate ReachesBack(before: seq<Block>, items: seq<BlockId>, events: seq<ProviderEvent>) {
    || (exists i :: 0 <= i < |events| && NamesABlockBefore(before, items, events[..i], events[i]))
    || (exists k :: TurnStart(before) <= k < |before| && RunsAStep(before[k]))
  }

  /** As long as no event names a block before the request, what it wrote stands after those blocks. */
  ghost predicate WroteAfter(before: seq<Block>, output: Output, events: seq<ProviderEvent>) {
    var blocks := output.blocks;
    && |before| <= |blocks| && blocks[..|before|] == before
    && (|blocks| == |before| <==> NothingAppended(events))
    && ((exists k :: |before| <= k < |blocks| && blocks[k].body.Thinking?)
        <==> exists j :: 0 <= j < |events| && events[j].IsReasoning())
    && (forall k :: |before| <= k < |blocks| ==>
                      && !blocks[k].body.User? && NewId(before) <= blocks[k].id
                      && (blocks[k].body.Opaque? ==> !HoldsStep(before, blocks[k].body.callId)))
    && (forall k :: 0 <= k < |output.written| ==> NewId(before) <= output.written[k])
  }

  lemma {:induction false} TheTurnStartsWhereItDid(before: seq<Block>, blocks: seq<Block>)
    requires |before| <= |blocks| && blocks[..|before|] == before
    requires forall k :: |before| <= k < |blocks| ==> !blocks[k].body.User?
    ensures TurnStart(blocks) == TurnStart(before)
  {
    var start := TurnStart(before);
    assert forall k :: 0 <= k < |before| ==> blocks[k] == before[k];
    assert start > 0 ==> blocks[start - 1].body.User?;
    assert forall k :: start <= k < |blocks| ==> !blocks[k].body.User?;
  }

  lemma {:induction false} AStepOfTheTurnIsWhereItWas(
      before: seq<Block>, output: Output, events: seq<ProviderEvent>, callId: Option<nat>)
    requires WroteAfter(before, output, events)
    ensures HoldsStep(before, callId) ==> StepOf(output.blocks, callId) == StepOf(before, callId)
    ensures !HoldsStep(before, callId) && StepOf(output.blocks, callId).Some? ==>
              |before| <= StepOf(output.blocks, callId).value
  {
    var blocks := output.blocks;
    TheTurnStartsWhereItDid(before, blocks);
    assert forall k :: 0 <= k < |before| ==> blocks[k] == before[k];
  }

  lemma {:induction false} TheReasoningAfterIsTheLast(before: seq<Block>, output: Output, events: seq<ProviderEvent>)
    requires WroteAfter(before, output, events) && LastReasoning(output.blocks).Some?
    ensures LastReasoning(output.blocks).value < |before|
            <==> forall j :: 0 <= j < |events| ==> !events[j].IsReasoning()
    ensures LastReasoning(output.blocks).value < |before| ==> HoldsReasoning(before)
  {
    var (blocks, at) := (output.blocks, LastReasoning(output.blocks).value);
    assert at < |before| ==> blocks[at] == before[at];
  }

  // An event that names no block before the request leaves them as they are.

  lemma {:induction false} OneMoreEvent(
      before: seq<Block>, output: Output, events: seq<ProviderEvent>, event: ProviderEvent)
    requires WroteAfter(before, output, events)
    requires event.Appends() ==> |before| < |output.blocks|
    requires event.IsReasoning() ==> exists k :: |before| <= k < |output.blocks| && output.blocks[k].body.Thinking?
    ensures WroteAfter(before, output, events + [event])
  {
    var all := events + [event];
    assert forall j :: 0 <= j < |events| ==> all[j] == events[j];
    assert all[|events|] == event;
    assert NothingAppended(all) <==> NothingAppended(events) && !event.Appends();
  }

  lemma {:induction false} WritingAfterStays(
      before: seq<Block>, output: Output, events: seq<ProviderEvent>, at: nat, body: Body)
    requires WroteAfter(before, output, events) && |before| <= at < |output.blocks|
    requires !body.User? && (body.Thinking? <==> output.blocks[at].body.Thinking?)
    requires body.Opaque? ==> !HoldsStep(before, body.callId)
    ensures WroteAfter(before, WriteInto(output, at, body), events)
  {
    var (blocks, after) := (output.blocks, WriteInto(output, at, body).blocks);
    assert forall k :: 0 <= k < |blocks| ==> after[k].body.Thinking? == blocks[k].body.Thinking?;
    assert after[..|before|] == before;
  }

  lemma {:induction false} AppendingStays(
      before: seq<Block>, output: Output, events: seq<ProviderEvent>, event: ProviderEvent, body: Body)
    requires WroteAfter(before, output, events) && event.Appends() && (body.Thinking? <==> event.IsReasoning())
    requires !body.User? && (body.Opaque? ==> !HoldsStep(before, body.callId))
    ensures WroteAfter(before, Append(output, body), events + [event])
  {
    var (blocks, after) := (output.blocks, Append(output, body).blocks);
    assert NewId(before) <= NewId(blocks) by {
      ANewIdIsLaterInALongerPath(before, blocks);
    }
    assert after[..|blocks|] == blocks && after[..|before|] == before;
    assert after[|blocks|].body == body && after[|blocks|].id == NewId(blocks);
    var all := events + [event];
    assert all[|events|] == event && forall j :: 0 <= j < |events| ==> all[j] == events[j];
  }

  lemma {:induction false} ANewIdIsLaterInALongerPath(before: seq<Block>, blocks: seq<Block>)
    requires |before| <= |blocks| && blocks[..|before|] == before
    ensures NewId(before) <= NewId(blocks)
  {
    if |before| < |blocks| {
      assert blocks[..|blocks| - 1][..|before|] == before;
      ANewIdIsLaterInALongerPath(before, blocks[..|blocks| - 1]);
    } else {
      assert blocks == before;
    }
  }

  lemma {:induction false} CompletingStays(before: seq<Block>, output: Output, events: seq<ProviderEvent>)
    requires WroteAfter(before, output, events) && !(TextCompletes(before) && NothingAppended(events))
    ensures WroteAfter(before, CompleteTail(output), events)
  {
    assert |output.blocks| == |before| ==> output.blocks == before;
    if TextCompletes(output.blocks) {
      var last := |output.blocks| - 1;
      WritingAfterStays(before, output, events, last, output.blocks[last].body.(complete := true));
    }
  }

  lemma {:induction false} ABlockIsWhereItWas(before: seq<Block>, output: Output, events: seq<ProviderEvent>, id: BlockId)
    requires WroteAfter(before, output, events)
    ensures PositionOf(before, id).Some? ==> PositionOf(output.blocks, id) == PositionOf(before, id)
    ensures PositionOf(before, id).None? && PositionOf(output.blocks, id).Some? ==>
              |before| <= PositionOf(output.blocks, id).value
  {
    assert forall k :: 0 <= k < |before| ==> output.blocks[k] == before[k];
    if PositionOf(before, id).Some? {
      assert id < NewId(before);
    }
  }

  lemma {:induction false} KeepingEntriesStays(
      before: seq<Block>, items: seq<BlockId>, output: Output, events: seq<ProviderEvent>, of: EntriesOf)
    requires WroteAfter(before, output, events) && !NamesABlockBefore(before, items, events, Entries(of))
    ensures WroteAfter(before, KeepEntries(output, items, of), events)
  {
    var blocks := output.blocks;
    assert forall k :: 0 <= k < |before| ==> blocks[k] == before[k];
    var named := match of
                 case Item(index) => if index < |items| then Some(items[index]) else None
                 case Written(index) => if index < |output.written| then Some(output.written[index]) else None;
    if named.Some? && PositionOf(blocks, named.value).Some? {
      var at := PositionOf(blocks, named.value).value;
      if HoldsEntries(blocks[at]) {
        ABlockIsWhereItWas(before, output, events, named.value);
        WritingAfterStays(before, output, events, at, blocks[at].body);
      }
    }
  }

  lemma {:induction false} AStepAfterStays(
      before: seq<Block>, output: Output, events: seq<ProviderEvent>, event: ProviderEvent)
    requires WroteAfter(before, output, events) && event.OpaqueStep? && !HoldsStep(before, event.callId)
    ensures WroteAfter(before, Apply(output, event), events + [event])
  {
    AStepOfTheTurnIsWhereItWas(before, output, events, event.callId);
    var at := StepOf(output.blocks, event.callId);
    if at.Some? {
      WritingAfterStays(before, output, events, at.value, event.Step());
      OneMoreEvent(before, Apply(output, event), events, event);
    } else {
      AppendingStays(before, output, events, event, event.Step());
    }
  }

  lemma {:induction false} ApplyingStays(
      before: seq<Block>, items: seq<BlockId>, output: Output, events: seq<ProviderEvent>, event: ProviderEvent)
    requires WroteAfter(before, output, events) && !NamesABlockBefore(before, items, events, event)
    ensures WroteAfter(before, Apply(output, event), events + [event])
  {
    var blocks := output.blocks;
    var last := |blocks| - 1;
    if |blocks| == |before| {
      assert blocks == before;
    }
    match event
    case ThinkingStart => AppendingStays(before, output, events, event, Thinking(false));
    case ThinkingDelta =>
      if EndsInOpenThinking(blocks) {
        WritingAfterStays(before, output, events, last, blocks[last].body);
        var after := Apply(output, event);
        assert after.blocks[last].body.Thinking?;
        OneMoreEvent(before, after, events, event);
      } else {
        AppendingStays(before, output, events, event, Thinking(false));
      }
    case ThinkingSignature =>
      if LastReasoning(blocks).Some? {
        TheReasoningAfterIsTheLast(before, output, events);
        WritingAfterStays(before, output, events, LastReasoning(blocks).value, Thinking(true));
      }
      OneMoreEvent(before, Apply(output, event), events, event);
    case OpaqueStep(_, _, _) => AStepAfterStays(before, output, events, event);
    case TextDelta(blank) =>
      if EndsInOpenText(blocks) {
        WritingAfterStays(before, output, events, last, Text(blocks[last].body.blank && blank, false));
        OneMoreEvent(before, Apply(output, event), events, event);
      } else {
        AppendingStays(before, output, events, event, Text(blank, false));
      }
    case WholeCall(toolUseId, toolName) => AppendingStays(before, output, events, event, ToolCall(toolUseId, toolName, true));
    case UsageReported => AppendingStays(before, output, events, event, Response);
    case AccountSwitched => AppendingStays(before, output, events, event, AccountSwitch);
    case Entries(_) => OneMoreEvent(before, output, events, event);
    case Quiet => OneMoreEvent(before, output, events, event);
  }

  lemma {:induction false} AnEventAfterStays(
      before: seq<Block>, items: seq<BlockId>, output: Output, events: seq<ProviderEvent>, event: ProviderEvent)
    requires WroteAfter(before, output, events) && !NamesABlockBefore(before, items, events, event)
    ensures WroteAfter(before, Take(output, items, event), events + [event])
  {
    if event.Entries? {
      KeepingEntriesStays(before, items, output, events, event.of);
      OneMoreEvent(before, KeepEntries(output, items, event.of), events, event);
    } else if event.CompletesText() {
      CompletingStays(before, output, events);
      ApplyingStays(before, items, CompleteTail(output), events, event);
    } else {
      ApplyingStays(before, items, output, events, event);
    }
  }

  // An event that names one writes into it.

  ghost predicate WrittenInto(before: seq<Block>, blocks: seq<Block>) {
    |before| <= |blocks| && exists k :: 0 <= k < |before| && before[k].content < blocks[k].content
  }

  lemma {:induction false} EntriesReachTheirBlock(
      before: seq<Block>, items: seq<BlockId>, output: Output, events: seq<ProviderEvent>, event: ProviderEvent)
    requires WroteAfter(before, output, events) && event.Entries? && NamesABlockBefore(before, items, events, event)
    ensures WrittenInto(before, Take(output, items, event).blocks)
  {
    var id := items[event.of.index];
    ABlockIsWhereItWas(before, output, events, id);
    var at := PositionOf(before, id).value;
    assert output.blocks[..|before|][at] == before[at];
    assert before[at].content < KeepEntries(output, items, event.of).blocks[at].content;
  }

  lemma {:induction false} ATextAtTheEndCompletes(
      before: seq<Block>, items: seq<BlockId>, output: Output, events: seq<ProviderEvent>, event: ProviderEvent)
    requires WroteAfter(before, output, events) && event.CompletesText() && TextCompletes(before) && NothingAppended(events)
    ensures WrittenInto(before, Take(output, items, event).blocks)
  {
    assert output.blocks == before;
    var ready := CompleteTail(output);
    assert before[|before| - 1].content < ready.blocks[|before| - 1].content;
    ApplyingFollows(ready, event);
  }

  lemma {:induction false} AStepReachesItsBlock(
      before: seq<Block>, items: seq<BlockId>, output: Output, events: seq<ProviderEvent>, event: ProviderEvent)
    requires WroteAfter(before, output, events) && event.OpaqueStep? && HoldsStep(before, event.callId)
    requires !(TextCompletes(before) && NothingAppended(events))
    ensures WrittenInto(before, Take(output, items, event).blocks)
  {
    CompletingStays(before, output, events);
    var ready := CompleteTail(output);
    AStepOfTheTurnIsWhereItWas(before, ready, events, event.callId);
    var at := StepOf(before, event.callId).value;
    assert ready.blocks[..|before|][at] == before[at];
    assert before[at].content < Apply(ready, event).blocks[at].content;
  }

  lemma {:induction false} ASignatureReachesTheReasoning(
      before: seq<Block>, items: seq<BlockId>, output: Output, events: seq<ProviderEvent>)
    requires WroteAfter(before, output, events) && NamesABlockBefore(before, items, events, ThinkingSignature)
    ensures WrittenInto(before, Take(output, items, ThinkingSignature).blocks)
  {
    var blocks := output.blocks;
    var held :| 0 <= held < |before| && before[held].body.Thinking?;
    assert blocks[..|before|][held] == before[held];
    TheReasoningAfterIsTheLast(before, output, events);
    var at := LastReasoning(blocks).value;
    assert blocks[..|before|][at] == before[at];
    assert before[at].content < Apply(output, ThinkingSignature).blocks[at].content;
  }

  lemma {:induction false} ADeltaReachesTheLastBlock(
      before: seq<Block>, items: seq<BlockId>, output: Output, events: seq<ProviderEvent>, event: ProviderEvent)
    requires WroteAfter(before, output, events) && NothingAppended(events)
    requires (event.ThinkingDelta? && EndsInOpenThinking(before)) || (event.TextDelta? && EndsInOpenText(before))
    ensures WrittenInto(before, Take(output, items, event).blocks)
  {
    assert output.blocks == before;
    var last := |before| - 1;
    assert before[last].content < Apply(output, event).blocks[last].content;
  }

  lemma {:induction false} AnEventThatNamesABlockWritesIntoIt(
      before: seq<Block>, items: seq<BlockId>, output: Output, events: seq<ProviderEvent>, event: ProviderEvent)
    requires WroteAfter(before, output, events) && NamesABlockBefore(before, items, events, event)
    ensures WrittenInto(before, Take(output, items, event).blocks)
  {
    if event.CompletesText() && TextCompletes(before) && NothingAppended(events) {
      ATextAtTheEndCompletes(before, items, output, events, event);
    } else if event.Entries? {
      EntriesReachTheirBlock(before, items, output, events, event);
    } else if event.OpaqueStep? {
      AStepReachesItsBlock(before, items, output, events, event);
    } else if event.ThinkingSignature? {
      ASignatureReachesTheReasoning(before, items, output, events);
    } else {
      ADeltaReachesTheLastBlock(before, items, output, events, event);
    }
  }

  // All events of a request.

  lemma {:induction false} NothingIsWrittenYet(before: seq<Block>)
    ensures WroteAfter(before, Output(before, []), [])
  {
  }

  lemma {:induction false} WithNoBlockNamed(before: seq<Block>, items: seq<BlockId>, events: seq<ProviderEvent>)
    requires forall i :: 0 <= i < |events| ==> !NamesABlockBefore(before, items, events[..i], events[i])
    ensures WroteAfter(before, Streamed(before, items, events), events)
  {
    if events == [] {
      NothingIsWrittenYet(before);
    } else {
      var (earlier, last) := (events[..|events| - 1], events[|events| - 1]);
      assert events[..|events| - 1] == earlier;
      forall i | 0 <= i < |earlier| ensures !NamesABlockBefore(before, items, earlier[..i], earlier[i]) {
        assert earlier[..i] == events[..i];
      }
      WithNoBlockNamed(before, items, earlier);
      AnEventAfterStays(before, items, Streamed(before, items, earlier), earlier, last);
      assert earlier + [last] == events;
    }
  }

  /** The first event that names a block before the request. */
  lemma {:induction false} TheFirstToNameABlock(
      before: seq<Block>, items: seq<BlockId>, events: seq<ProviderEvent>, i: nat)
    returns (first: nat)
    requires i < |events| && NamesABlockBefore(before, items, events[..i], events[i])
    ensures first <= i && NamesABlockBefore(before, items, events[..first], events[first])
    ensures forall j :: 0 <= j < first ==> !NamesABlockBefore(before, items, events[..j], events[j])
  {
    if j :| 0 <= j < i && NamesABlockBefore(before, items, events[..j], events[j]) {
      first := TheFirstToNameABlock(before, items, events, j);
    } else {
      first := i;
    }
  }

  lemma {:induction false} StreamedThrough(before: seq<Block>, items: seq<BlockId>, events: seq<ProviderEvent>, i: nat)
    requires i < |events|
    ensures Streamed(before, items, events[..i + 1]) == Take(Streamed(before, items, events[..i]), items, events[i])
  {
    assert events[..i + 1][..i] == events[..i];
  }

  lemma {:induction false} WhatIsWrittenIntoStaysSo(before: seq<Block>, blocks: seq<Block>, after: seq<Block>)
    requires WrittenInto(before, blocks) && Follows(blocks, after)
    ensures WrittenInto(before, after)
  {
    var k :| 0 <= k < |before| && before[k].content < blocks[k].content;
    assert before[k].content < after[k].content;
  }

  lemma {:induction false} TheFirstNamesNoneBefore(
      before: seq<Block>, items: seq<BlockId>, events: seq<ProviderEvent>, first: nat)
    requires first <= |events|
    requires forall j :: 0 <= j < first ==> !NamesABlockBefore(before, items, events[..j], events[j])
    ensures WroteAfter(before, Streamed(before, items, events[..first]), events[..first])
  {
    var earlier := events[..first];
    forall j | 0 <= j < first ensures !NamesABlockBefore(before, items, earlier[..j], earlier[j]) {
      assert earlier[..j] == events[..j];
    }
    WithNoBlockNamed(before, items, earlier);
  }

  lemma {:induction false} OnceABlockIsNamed(before: seq<Block>, items: seq<BlockId>, events: seq<ProviderEvent>, i: nat)
    requires i < |events| && NamesABlockBefore(before, items, events[..i], events[i])
    ensures WrittenInto(before, Streamed(before, items, events).blocks)
  {
    var first := TheFirstToNameABlock(before, items, events, i);
    TheFirstNamesNoneBefore(before, items, events, first);
    var output := Streamed(before, items, events[..first]);
    AnEventThatNamesABlockWritesIntoIt(before, items, output, events[..first], events[first]);
    StreamedThrough(before, items, events, first);
    StreamingFollows(before, items, events, first + 1);
    WhatIsWrittenIntoStaysSo(before, Take(output, items, events[first]).blocks, Streamed(before, items, events).blocks);
  }

  /** A request that failed leaves the blocks before it as they were if and only if none of its events
      names one of them and no vendor's step of the turn still ran. */
  lemma {:induction false} ARequestLeavesTheBlocksBeforeItExactlyWhen(
      before: seq<Block>, items: seq<BlockId>, events: seq<ProviderEvent>)
    ensures |before| <= |AfterRequest(before, items, events, false)|
    ensures AfterRequest(before, items, events, false)[..|before|] == before <==> !ReachesBack(before, items, events)
  {
    var output := Streamed(before, items, events);
    var after := AfterRequest(before, items, events, false);
    StreamingFollows(before, items, events, 0);
    if i :| 0 <= i < |events| && NamesABlockBefore(before, items, events[..i], events[i]) {
      OnceABlockIsNamed(before, items, events, i);
      var k :| 0 <= k < |before| && before[k].content < output.blocks[k].content;
      assert after[..|before|][k] != before[k];
    } else {
      WithNoBlockNamed(before, items, events);
      TheTurnStartsWhereItDid(before, output.blocks);
      assert forall k :: 0 <= k < |before| ==> output.blocks[k] == before[k];
      if k :| TurnStart(before) <= k < |before| && RunsAStep(before[k]) {
        assert after[..|before|][k] != before[k];
      } else {
        assert after[..|before|] == before;
      }
    }
  }
}
