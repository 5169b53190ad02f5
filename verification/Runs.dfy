/**
 The runs of steps a transcript's blocks belong to (crates/agent-store/src/changes.rs): each block is
 given its run once, as it is stored, by a scan back over the blocks before it.
 */
module Runs {
  import opened Wrappers
  import opened Blocks

  /** A block is a step, parts the steps around it, or does neither. */
  datatype Place = Step | Passes | Ends

  function PlaceOf(block: Block, senderBelow: bool): Place {
    match block.body
    case Thinking(_) | Opaque(_, _, _) | ToolCall(_, _, _) => Step
    case Wakeup(_, _, reports) => if exists k :: 0 <= k < |reports| && reports[k].Ended? then Step else Passes
    case AgentMessage(_, event) =>
      if event.Completion? || (event.Message? && senderBelow) then Step else Ends
    case Response | Resume(_) | Context(_) | CompactionBoundary => Passes
    case Abort(isResumed) => if isResumed then Passes else Ends
    case User(_) | Steer(_) | Text(_, _) | Error(_, _) | AccountSwitch | CompactionMarker => Ends
  }

  /** The run `block` joins after `before`. */
  function RunOf(before: seq<Block>, block: Block, senderBelow: bool): Option<BlockId> {
    if PlaceOf(block, senderBelow).Step? then Some(Joined(before, block.id)) else None
  }

  /** The last step's run when only passing blocks follow that step, and else a new one named `own`. */
  function Joined(before: seq<Block>, own: BlockId): BlockId {
    if before == [] then own
    else
      var previous := before[|before| - 1];
      match PlaceOf(previous, previous.Run().Some?)
      case Passes => Joined(before[..|before| - 1], own)
      case Ends => own
      case Step => if previous.Run().Some? then previous.Run().value else previous.id
  }

  function Appended(blocks: seq<Block>, block: Block, senderBelow: bool): seq<Block> {
    blocks + [block.WithRun(RunOf(blocks, block, senderBelow))]
  }

  datatype Arrival = Arrival(block: Block, senderBelow: bool)

  /** The blocks as storing them one by one leaves them. */
  function Stored(arrivals: seq<Arrival>): (blocks: seq<Block>)
    ensures |blocks| == |arrivals|
    ensures forall k :: 0 <= k < |blocks| ==> blocks[k] == arrivals[k].block.WithRun(blocks[k].Run())
  {
    if arrivals == [] then []
    else
      var last := arrivals[|arrivals| - 1];
      Appended(Stored(arrivals[..|arrivals| - 1]), last.block, last.senderBelow)
  }

  // What a run is.

  /** How each of the blocks stands toward a run; a message's stored run says where its sender was. */
  function Places(blocks: seq<Block>): (places: seq<Place>)
    ensures |places| == |blocks|
    ensures forall k :: 0 <= k < |blocks| ==> places[k] == PlaceOf(blocks[k], blocks[k].Run().Some?)
  {
    seq(|blocks|, k requires 0 <= k < |blocks| => PlaceOf(blocks[k], blocks[k].Run().Some?))
  }

  /** Two steps with no ending block between them. */
  ghost predicate Together(places: seq<Place>, i: nat, j: nat) {
    && i <= j < |places| && places[i].Step? && places[j].Step?
    && forall k :: i < k < j ==> !places[k].Ends?
  }

  ghost predicate OpensARun(places: seq<Place>, i: nat) {
    i < |places| && places[i].Step? && forall k: nat :: Together(places, k, i) ==> k == i
  }

  /** The run of the step at `j` is named after the first step that no ending block parts from it. */
  ghost predicate Named(blocks: seq<Block>, places: seq<Place>, j: nat)
    requires j < |blocks| == |places|
  {
    exists i: nat ::
      OpensARun(places, i) && Together(places, i, j) && blocks[j].Run() == Some(blocks[i].id)
  }

  ghost predicate NamedBy(blocks: seq<Block>, places: seq<Place>)
    requires |blocks| == |places|
  {
    && (forall j :: 0 <= j < |blocks| ==> (blocks[j].Run().Some? <==> places[j].Step?))
    && (forall j :: 0 <= j < |blocks| && places[j].Step? ==> Named(blocks, places, j))
  }

  /** Only the steps are of runs, and each run is named after its first step. */
  ghost predicate Grouped(blocks: seq<Block>) {
    NamedBy(blocks, Places(blocks))
  }

  ghost predicate DistinctIds(blocks: seq<Block>) {
    forall i, j :: 0 <= i < j < |blocks| ==> blocks[i].id != blocks[j].id
  }

  lemma {:induction false} AnAppendedPlace(blocks: seq<Block>, block: Block, below: bool)
    ensures Places(Appended(blocks, block, below)) == Places(blocks) + [PlaceOf(block, below)]
    ensures Appended(blocks, block, below)[|blocks|].Run().Some? <==> PlaceOf(block, below).Step?
  {
    var last := Appended(blocks, block, below)[|blocks|];
    assert PlaceOf(last, last.Run().Some?) == PlaceOf(block, below);
  }

  lemma {:induction false} OpensAmongTheFirst(places: seq<Place>, place: Place, i: nat)
    requires i < |places|
    ensures OpensARun(places + [place], i) <==> OpensARun(places, i)
  {
    var all := places + [place];
    assert forall k :: 0 <= k < |places| ==> all[k] == places[k];
    forall k: nat ensures Together(all, k, i) <==> Together(places, k, i) {
    }
  }

  /** The last step, when no ending block follows it. */
  function LastStep(places: seq<Place>): (last: Option<nat>)
    ensures match last
            case Some(at) => at < |places| && places[at].Step? && forall k :: at < k < |places| ==> places[k].Passes?
            case None => forall i :: 0 <= i < |places| && places[i].Step? ==>
                                       exists k :: i < k < |places| && places[k].Ends?
  {
    if places == [] then None
    else
      match places[|places| - 1]
      case Step => Some(|places| - 1)
      case Ends => None
      case Passes => LastStep(places[..|places| - 1])
  }

  lemma {:induction false} JoinedIsOfTheLastStep(blocks: seq<Block>, own: BlockId)
    requires forall j :: 0 <= j < |blocks| ==> (blocks[j].Run().Some? <==> Places(blocks)[j].Step?)
    ensures Joined(blocks, own)
            == match LastStep(Places(blocks)) case None => own case Some(at) => blocks[at].Run().value
  {
    if blocks != [] {
      var at := |blocks| - 1;
      assert Places(blocks[..at]) == Places(blocks)[..at];
      if Places(blocks)[at].Passes? {
        JoinedIsOfTheLastStep(blocks[..at], own);
      }
    }
  }

  lemma {:induction false} AStepAfterNoneOpensARun(places: seq<Place>)
    requires LastStep(places).None?
    ensures OpensARun(places + [Step], |places|)
  {
    var all := places + [Step];
    forall k: nat | k < |places| && places[k].Step? ensures !Together(all, k, |places|) {
      var e :| k < e < |places| && places[e].Ends?;
      assert all[e].Ends?;
    }
    assert forall k :: 0 <= k < |places| ==> all[k] == places[k];
  }

  lemma {:induction false} ANewStepIsNamed(blocks: seq<Block>, block: Block, below: bool)
    requires Grouped(blocks) && PlaceOf(block, below).Step?
    ensures Named(Appended(blocks, block, below), Places(blocks) + [Step], |blocks|)
  {
    var (places, all) := (Places(blocks), Appended(blocks, block, below));
    var longer := places + [Step];
    JoinedIsOfTheLastStep(blocks, block.id);
    match LastStep(places)
    case None =>
      AStepAfterNoneOpensARun(places);
      assert Together(longer, |blocks|, |blocks|);
    case Some(at) =>
      assert Named(blocks, places, at);
      var i: nat :|
        OpensARun(places, i) && Together(places, i, at) && blocks[at].Run() == Some(blocks[i].id);
      OpensAmongTheFirst(places, Step, i);
      AStepAfterTheLastIsOfItsRun(places, i, at);
      assert all[i].id == blocks[i].id;
      assert all[|blocks|].Run() == Some(all[i].id);
  }

  lemma {:induction false} AStepAfterTheLastIsOfItsRun(places: seq<Place>, i: nat, at: nat)
    requires LastStep(places) == Some(at) && Together(places, i, at)
    ensures Together(places + [Step], i, |places|)
  {
    var longer := places + [Step];
    forall k | i < k < |places| ensures !longer[k].Ends? {
      assert longer[k] == places[k];
    }
  }

  lemma {:induction false} AnAppendKeepsGroups(blocks: seq<Block>, block: Block, below: bool)
    requires Grouped(blocks)
    ensures Grouped(Appended(blocks, block, below))
  {
    var (places, all) := (Places(blocks), Appended(blocks, block, below));
    AnAppendedPlace(blocks, block, below);
    var longer := places + [PlaceOf(block, below)];
    forall j | 0 <= j < |blocks| && longer[j].Step? ensures Named(all, longer, j) {
      assert Named(blocks, places, j);
      var i: nat :| OpensARun(places, i) && Together(places, i, j) && blocks[j].Run() == Some(blocks[i].id);
      OpensAmongTheFirst(places, PlaceOf(block, below), i);
      assert Together(longer, i, j);
    }
    if PlaceOf(block, below).Step? {
      ANewStepIsNamed(blocks, block, below);
    }
  }

  function ArrivalPlaces(arrivals: seq<Arrival>): seq<Place> {
    seq(|arrivals|, k requires 0 <= k < |arrivals| => PlaceOf(arrivals[k].block, arrivals[k].senderBelow))
  }

  lemma {:induction false} StoringOneMore(arrivals: seq<Arrival>)
    requires arrivals != []
    ensures var (before, last) := (arrivals[..|arrivals| - 1], arrivals[|arrivals| - 1]);
            Stored(arrivals) == Appended(Stored(before), last.block, last.senderBelow)
  {
  }

  lemma {:induction false} TheArrivalsPlaces(arrivals: seq<Arrival>)
    ensures Places(Stored(arrivals)) == ArrivalPlaces(arrivals)
  {
    if arrivals != [] {
      var (before, last) := (arrivals[..|arrivals| - 1], arrivals[|arrivals| - 1]);
      TheArrivalsPlaces(before);
      StoringOneMore(arrivals);
      AnAppendedPlace(Stored(before), last.block, last.senderBelow);
      assert ArrivalPlaces(arrivals) == ArrivalPlaces(before) + [PlaceOf(last.block, last.senderBelow)];
    }
  }

  lemma {:induction false} StoringGroups(arrivals: seq<Arrival>)
    ensures Grouped(Stored(arrivals))
  {
    if arrivals != [] {
      var (before, last) := (arrivals[..|arrivals| - 1], arrivals[|arrivals| - 1]);
      StoringGroups(before);
      StoringOneMore(arrivals);
      AnAppendKeepsGroups(Stored(before), last.block, last.senderBelow);
    }
  }

  /** Storing blocks one at a time gives the declared grouping. */
  lemma {:induction false} StoringOneByOneGroups(arrivals: seq<Arrival>)
    ensures Grouped(Stored(arrivals)) && Places(Stored(arrivals)) == ArrivalPlaces(arrivals)
  {
    StoringGroups(arrivals);
    TheArrivalsPlaces(arrivals);
  }

  /** Appending blocks never changes an earlier block. */
  lemma {:induction false} LaterBlocksChangeNoEarlierRun(arrivals: seq<Arrival>, n: nat)
    requires n <= |arrivals|
    ensures Stored(arrivals)[..n] == Stored(arrivals[..n])
  {
    if n == |arrivals| {
      assert arrivals[..n] == arrivals;
    } else {
      var before := arrivals[..|arrivals| - 1];
      LaterBlocksChangeNoEarlierRun(before, n);
      assert before[..n] == arrivals[..n];
      assert Stored(arrivals)[..|before|] == Stored(before);
      assert Stored(arrivals)[..n] == Stored(arrivals)[..|before|][..n];
    }
  }

  lemma {:induction false} OneOpensARun(places: seq<Place>, a: nat, b: nat, j: nat)
    requires OpensARun(places, a) && Together(places, a, j) && OpensARun(places, b) && Together(places, b, j)
    ensures a == b
  {
    assert a < b ==> Together(places, a, b);
    assert b < a ==> Together(places, b, a);
  }

  lemma {:induction false} SharedOpeningIsTogether(places: seq<Place>, a: nat, i: nat, j: nat)
    requires Together(places, a, i) && i < j
    ensures Together(places, a, j) <==> Together(places, i, j)
  {
  }

  /** Two steps share a run exactly when no ending block lies between them. */
  lemma {:induction false} StepsShareARunExactlyWhenTogether(blocks: seq<Block>, i: nat, j: nat)
    requires Grouped(blocks) && DistinctIds(blocks)
    requires i < j < |blocks| && Places(blocks)[i].Step? && Places(blocks)[j].Step?
    ensures blocks[i].Run() == blocks[j].Run() <==> Together(Places(blocks), i, j)
  {
    var places := Places(blocks);
    assert Named(blocks, places, i) && Named(blocks, places, j);
    var a: nat :| OpensARun(places, a) && Together(places, a, i) && blocks[i].Run() == Some(blocks[a].id);
    var b: nat :| OpensARun(places, b) && Together(places, b, j) && blocks[j].Run() == Some(blocks[b].id);
    SharedOpeningIsTogether(places, a, i, j);
    if Together(places, i, j) {
      OneOpensARun(places, a, b, j);
    } else {
      assert a != b;
    }
  }

  // The same of the blocks as they arrive.

  /** What an agent works by itself: its thinking and calls, the report of a command's end, an agent's end and a
      message from below. */
  ghost predicate IsOwnWork(a: Arrival) {
    || a.block.body.Thinking? || a.block.body.Opaque? || a.block.body.ToolCall?
    || (a.block.body.Wakeup? && Ended in a.block.body.reports)
    || (a.block.body.AgentMessage? && (a.block.body.event == Completion || (a.block.body.event == Message && a.senderBelow)))
  }

  /** What the reader reads among that work: the agent's text, the words and decisions of the user and of agents that
      are not below, an error, a switch of accounts, a compaction's divider, and a Stop that was not continued. */
  ghost predicate IsRead(a: Arrival) {
    || a.block.body.User? || a.block.body.Steer? || a.block.body.Text? || a.block.body.Error? || a.block.body.AccountSwitch?
    || a.block.body.CompactionMarker? || (a.block.body.Abort? && !a.block.body.isResumed)
    || (a.block.body.AgentMessage? && !IsOwnWork(a))
  }

  lemma {:induction false} AnArrivalsPlace(a: Arrival)
    ensures PlaceOf(a.block, a.senderBelow).Step? <==> IsOwnWork(a)
    ensures PlaceOf(a.block, a.senderBelow).Ends? <==> IsRead(a)
  {
  }

  /** Exactly the agent's own work is of runs, and two of its blocks share a run exactly when nothing between them is
      read. */
  lemma {:induction false} WorkSharesARunExactlyWhenNothingIsRead(arrivals: seq<Arrival>, i: nat, j: nat)
    requires DistinctIds(Stored(arrivals)) && i < j < |arrivals|
    ensures Stored(arrivals)[i].Run().Some? <==> IsOwnWork(arrivals[i])
    ensures IsOwnWork(arrivals[i]) && IsOwnWork(arrivals[j]) ==>
              (Stored(arrivals)[i].Run() == Stored(arrivals)[j].Run() <==> forall k :: i < k < j ==> !IsRead(arrivals[k]))
  {
    var places := ArrivalPlaces(arrivals);
    StoringOneByOneGroups(arrivals);
    AnArrivalsPlace(arrivals[i]);
    AnArrivalsPlace(arrivals[j]);
    forall k | i < k < j ensures places[k].Ends? <==> IsRead(arrivals[k]) { AnArrivalsPlace(arrivals[k]); }
    if places[i].Step? && places[j].Step? { StepsShareARunExactlyWhenTogether(Stored(arrivals), i, j); }
  }

  // Continuing after a Stop.

  /** The transcript with the Stop at `at` continued. */
  function Resumed(blocks: seq<Block>, at: nat): seq<Block>
    requires at < |blocks| && blocks[at].body.Abort?
  {
    blocks[at := blocks[at].(body := Abort(true))]
  }

  /** Where the latest Stop is. */
  function LatestAbort(blocks: seq<Block>): (at: Option<nat>)
    ensures at.Some? ==> at.value < |blocks| && blocks[at.value].body.Abort?
    ensures forall k :: 0 <= k < |blocks| && blocks[k].body.Abort? ==> at.Some? && k <= at.value
  {
    if blocks == [] then None
    else if blocks[|blocks| - 1].body.Abort? then Some(|blocks| - 1)
    else LatestAbort(blocks[..|blocks| - 1])
  }

  function MarkLatestAbortResumed(blocks: seq<Block>): seq<Block> {
    match LatestAbort(blocks)
    case None => blocks
    case Some(at) => Resumed(blocks, at)
  }

  /** The block at `at` is all that may end the run between two steps. */
  ghost predicate PartsAlone(places: seq<Place>, at: nat, i: nat, j: nat) {
    i < at < j < |places| && Together(places[at := Passes], i, j)
  }

  lemma {:induction false} AResumedPlace(blocks: seq<Block>, at: nat)
    requires at < |blocks| && blocks[at].body.Abort?
    ensures Places(Resumed(blocks, at)) == Places(blocks)[at := Passes]
  {
  }

  /** Continuing a Stop keeps every stored run right exactly when no two steps on its sides are parted
      by it alone. */
  lemma {:induction false} ContinuingKeepsTheRunsExactlyWhen(blocks: seq<Block>, at: nat)
    requires Grouped(blocks) && DistinctIds(blocks)
    requires at < |blocks| && blocks[at].body == Abort(false)
    ensures Grouped(Resumed(blocks, at)) <==> !exists i: nat, j: nat :: PartsAlone(Places(blocks), at, i, j)
  {
    AResumedPlace(blocks, at);
    var after := Resumed(blocks, at);
    if i: nat, j: nat :| PartsAlone(Places(blocks), at, i, j) {
      assert Places(blocks)[at].Ends? && !Together(Places(blocks), i, j);
      StepsShareARunExactlyWhenTogether(blocks, i, j);
      if Grouped(after) {
        StepsShareARunExactlyWhenTogether(after, i, j);
      }
    } else {
      ContinuingWhatPartsNothing(blocks, at);
    }
  }

  lemma {:induction false} PassingWhatPartsNothing(places: seq<Place>, at: nat, i: nat, j: nat)
    requires at < |places| && places[at].Ends? && !PartsAlone(places, at, i, j)
    ensures Together(places[at := Passes], i, j) <==> Together(places, i, j)
  {
    assert forall k :: 0 <= k < |places| && k != at ==> places[at := Passes][k] == places[k];
  }

  lemma {:induction false} ContinuingWhatPartsNothing(blocks: seq<Block>, at: nat)
    requires Grouped(blocks) && at < |blocks| && blocks[at].body == Abort(false)
    requires forall i: nat, j: nat :: !PartsAlone(Places(blocks), at, i, j)
    ensures Grouped(Resumed(blocks, at))
  {
    AResumedPlace(blocks, at);
    var (places, after) := (Places(blocks), Resumed(blocks, at));
    var passed := places[at := Passes];
    forall i: nat, j: nat ensures Together(passed, i, j) <==> Together(places, i, j) {
      PassingWhatPartsNothing(places, at, i, j);
    }
    forall j | 0 <= j < |after| && passed[j].Step? ensures Named(after, passed, j) {
      assert passed[j] == places[j] && Named(blocks, places, j);
      var i: nat :| OpensARun(places, i) && Together(places, i, j) && blocks[j].Run() == Some(blocks[i].id);
      assert OpensARun(passed, i);
    }
  }

  /** Continuing the latest Stop changes no run when no step follows it. */
  lemma {:induction false} ContinuingAStopNoStepFollows(blocks: seq<Block>)
    requires Grouped(blocks)
    requires LatestAbort(blocks).Some? ==>
               forall k :: LatestAbort(blocks).value < k < |blocks| ==> !Places(blocks)[k].Step?
    ensures Grouped(MarkLatestAbortResumed(blocks))
    ensures forall k :: 0 <= k < |blocks| ==> MarkLatestAbortResumed(blocks)[k].Run() == blocks[k].Run()
  {
    if LatestAbort(blocks).Some? {
      var at := LatestAbort(blocks).value;
      if blocks[at].body == Abort(false) {
        ContinuingWhatPartsNothing(blocks, at);
      } else {
        assert Resumed(blocks, at) == blocks;
      }
    }
  }

  // Listing a stored transcript.

  function AllBelow(blocks: seq<Block>): (arrivals: seq<Arrival>)
    ensures |arrivals| == |blocks| && forall k :: 0 <= k < |blocks| ==> arrivals[k] == Arrival(blocks[k], true)
  {
    seq(|blocks|, k requires 0 <= k < |blocks| => Arrival(blocks[k], true))
  }

  /** Gives every block its run in place, as storing them one by one would. */
  method SetRuns(blocks: array<Block>)
    modifies blocks
    ensures blocks[..] == Stored(AllBelow(old(blocks[..])))
  {
    ghost var arrivals := AllBelow(blocks[..]);
    for index := 0 to blocks.Length
      invariant blocks[..index] == Stored(arrivals[..index])
      invariant forall k :: index <= k < blocks.Length ==> blocks[k] == arrivals[k].block
    {
      var run := RunOf(blocks[..index], blocks[index], true);
      blocks[index] := blocks[index].WithRun(run);
      assert arrivals[..index + 1][..index] == arrivals[..index];
      assert blocks[..index + 1] == blocks[..index] + [blocks[index]];
    }
    assert arrivals[..blocks.Length] == arrivals;
  }
}
