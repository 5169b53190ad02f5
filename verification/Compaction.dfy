/**
 A compaction pass (crates/agent-session/src/compaction.rs, crates/agent-transcript/src/compaction.rs):
 the window it summarizes, and how the window shrinks while its summary request is too long.
 */
module Compaction {
  import opened Wrappers
  import opened Blocks
  import opened SessionCores
  import opened Recovery
  import opened Conservation
  import opened SaveRuns
  import opened SessionRuns

  // The window.

  predicate IsAnswer(block: Block) {
    block.body.Thinking? || block.body.Opaque? || block.body.Text? || block.body.ToolCall?
  }

  /** The first position after the last compaction's blocks. */
  function Floor(blocks: seq<Block>): (floor: nat)
    ensures floor <= |blocks|
    ensures forall k :: floor <= k < |blocks| ==> !IsCompaction(blocks[k])
    ensures floor > 0 ==> IsCompaction(blocks[floor - 1])
  {
    if blocks == [] then 0
    else if IsCompaction(blocks[|blocks| - 1]) then |blocks|
    else Floor(blocks[..|blocks| - 1])
  }

  /** Where the run of answer blocks before `index` begins, not before `floor`. */
  function AnswerStart(blocks: seq<Block>, floor: nat, index: nat): (at: nat)
    requires floor <= index <= |blocks|
    ensures floor <= at <= index && forall k :: at <= k < index ==> IsAnswer(blocks[k])
    ensures at > floor ==> !IsAnswer(blocks[at - 1])
  {
    if index > floor && IsAnswer(blocks[index - 1]) then AnswerStart(blocks, floor, index - 1) else index
  }

  /** For every answer after the last compaction, ascending: its request's end, before the answer's own
      blocks, and the response block. */
  function Answered(blocks: seq<Block>, upTo: nat): (ends: seq<(nat, Block)>)
    requires Floor(blocks) <= upTo <= |blocks|
    ensures forall k :: 0 <= k < |ends| ==> Floor(blocks) <= ends[k].0 < upTo
    ensures forall j, k :: 0 <= j < k < |ends| ==> ends[j].0 < ends[k].0
    ensures forall k :: 0 <= k < |ends| ==> ends[k].0 <= AnswerStart(blocks, Floor(blocks), upTo)
    decreases upTo
  {
    if upTo == Floor(blocks) then []
    else
      var before := Answered(blocks, upTo - 1);
      var block := blocks[upTo - 1];
      if !block.body.Response? then before
      else
        var end := AnswerStart(blocks, Floor(blocks), upTo - 1);
        if before != [] && before[|before| - 1].0 == end then before else before + [(end, block)]
  }

  function UnansweredInput(blocks: seq<Block>): (at: nat)
    ensures at <= |blocks|
  {
    var answered := AfterLastResponse(blocks);
    LastUser(blocks, answered, |blocks|)
  }

  function AfterLastResponse(blocks: seq<Block>): (at: nat)
    ensures at <= |blocks|
  {
    if blocks == [] then 0
    else if blocks[|blocks| - 1].body.Response? then |blocks|
    else AfterLastResponse(blocks[..|blocks| - 1])
  }

  /** The last user block between the two positions, or the first of them. */
  function LastUser(blocks: seq<Block>, from: nat, end: nat): (at: nat)
    requires from <= end <= |blocks|
    ensures from <= at <= end
  {
    if end == from then from
    else if blocks[end - 1].body.User? then end - 1
    else LastUser(blocks, from, end - 1)
  }

  function Weigh(blocks: seq<Block>, weight: Block -> nat): nat {
    if blocks == [] then 0 else Weigh(blocks[..|blocks| - 1], weight) + weight(blocks[|blocks| - 1])
  }

  function OfModel(ends: seq<(nat, Block)>, ofModel: Block -> bool): (those: seq<nat>) {
    if ends == [] then []
    else
      var (before, last) := (OfModel(ends[..|ends| - 1], ofModel), ends[|ends| - 1]);
      if ofModel(last.1) then before + [last.0] else before
  }

  predicate Inside(ends: seq<nat>, low: nat, high: nat) {
    forall k :: 0 <= k < |ends| ==> low <= ends[k] < high
  }

  lemma {:induction false} EndsOfAModelAreInside(ends: seq<(nat, Block)>, ofModel: Block -> bool, low: nat, high: nat)
    requires forall k :: 0 <= k < |ends| ==> low <= ends[k].0 < high
    ensures Inside(OfModel(ends, ofModel), low, high)
  {
    if ends != [] {
      var before := ends[..|ends| - 1];
      assert forall k :: 0 <= k < |before| ==> before[k] == ends[k];
      EndsOfAModelAreInside(before, ofModel, low, high);
    }
  }

  /** Where the requests that the model answered end, ascending. */
  function EndsOf(blocks: seq<Block>, ofModel: Block -> bool): (ends: seq<nat>)
    ensures Inside(ends, Floor(blocks), |blocks|)
  {
    var answered := Answered(blocks, |blocks|);
    EndsOfAModelAreInside(answered, ofModel, Floor(blocks), |blocks|);
    OfModel(answered, ofModel)
  }

  /** The latest of the ends that leaves the budget after it. */
  function LatestWithin(blocks: seq<Block>, ends: seq<nat>, weight: Block -> nat, budget: nat): (end: Option<nat>)
    requires forall k :: 0 <= k < |ends| ==> ends[k] <= |blocks|
    ensures end.Some? ==> end.value in ends && Weigh(blocks[end.value..], weight) >= budget
  {
    if ends == [] then None
    else
      var last := ends[|ends| - 1];
      if Weigh(blocks[last..], weight) >= budget then Some(last)
      else LatestWithin(blocks, ends[..|ends| - 1], weight, budget)
  }

  /** What a pass summarizes, as start and cut: it starts at the last boundary and is cut at the latest
      answered request after which enough recent work stays. */
  function Window(blocks: seq<Block>, ofModel: Block -> bool, weight: Block -> nat, budget: nat): (w: (nat, nat))
    ensures w.0 == LastBoundary(blocks) && w.0 <= w.1 <= |blocks|
  {
    var start := LastBoundary(blocks);
    var answered := Answered(blocks, |blocks|);
    BoundaryIsBeforeTheFloor(blocks);
    if answered == [] then
      var input := UnansweredInput(blocks);
      (start, if input < start then start else input)
    else
      var ends := EndsOf(blocks, ofModel);
      if ends == [] then (start, answered[|answered| - 1].0)
      else
        var within := LatestWithin(blocks, ends, weight, budget);
        if within.Some? then (start, within.value) else (start, ends[|ends| - 1])
  }

  lemma {:induction false} BoundaryIsBeforeTheFloor(blocks: seq<Block>)
    ensures LastBoundary(blocks) <= Floor(blocks)
  {
    var at := LastBoundary(blocks);
    assert at > 0 ==> IsCompaction(blocks[at]);
  }

  /** The first block of the window that is no compaction's, or the window's end. */
  function FirstToSummarize(blocks: seq<Block>, start: nat, cut: nat): (first: nat)
    requires start <= cut <= |blocks|
    ensures start <= first <= cut && (first < cut ==> !IsCompaction(blocks[first]))
    ensures forall k :: start <= k < first ==> IsCompaction(blocks[k])
    decreases cut - start
  {
    if start == cut || !IsCompaction(blocks[start]) then start else FirstToSummarize(blocks, start + 1, cut)
  }

  // The pass.

  /** A copy's answer. */
  datatype Answer = Written(empty: bool) | TooLong | OnlyCalls | CopyFailed

  datatype Outcome = Compacted(cut: nat) | NoGain | PassFailed

  /** A summary request: whether it carries the whole history, where its window ends, and whether a
      second copy was asked. */
  datatype Request = Request(whole: bool, cut: nat, again: bool)

  /** How many copies the requests asked. */
  function Copies(requests: seq<Request>): nat {
    if requests == [] then 0
    else Copies(requests[..|requests| - 1]) + if requests[|requests| - 1].again then 2 else 1
  }

  function AskedAgain(requests: seq<Request>): nat {
    if requests == [] then 0
    else AskedAgain(requests[..|requests| - 1]) + if requests[|requests| - 1].again then 1 else 0
  }

  lemma {:induction false} OneCopyARequestAndOneEachAgain(requests: seq<Request>)
    ensures Copies(requests) == |requests| + AskedAgain(requests)
    ensures AskedAgain(requests) <= |requests|
  {
    if requests != [] {
      OneCopyARequestAndOneEachAgain(requests[..|requests| - 1]);
    }
  }

  /** Each request asked a second copy exactly when the first answered with calls alone, and each but the
      last was too long. */
  ghost predicate AskedInTurn(requests: seq<Request>, answers: nat -> Answer) {
    requests == []
    || (var (before, last) := (requests[..|requests| - 1], requests[|requests| - 1]);
        && AskedInTurn(before, answers) && (last.again <==> answers(Copies(before)).OnlyCalls?)
        && (before != [] ==> answers(Copies(before) - 1).TooLong?))
  }

  function Log2(n: nat): nat {
    if n <= 1 then 0 else 1 + Log2(n / 2)
  }

  /** Each request carries less than the one before it. */
  ghost predicate Shrinks(requests: seq<Request>) {
    forall j, k :: 0 <= j < k < |requests| ==>
                     || (requests[j].whole && !requests[k].whole && requests[k].cut <= requests[j].cut)
                     || (!requests[j].whole && !requests[k].whole && requests[k].cut < requests[j].cut)
  }

  /** Asks a session copy for a summary, and a second one when the first answers with calls alone. */
  method Summarize(answers: nat -> Answer, asked: nat) returns (answer: Answer, copies: nat, again: bool)
    ensures again == answers(asked).OnlyCalls? && copies == asked + (if again then 2 else 1)
    ensures answer == if answers(copies - 1).OnlyCalls? then CopyFailed else answers(copies - 1)
  {
    copies, again := asked + 1, false;
    answer := answers(asked);
    if answer.OnlyCalls? {
      copies, again := asked + 2, true;
      answer := answers(asked + 1);
      if answer.OnlyCalls? {
        answer := CopyFailed;
      }
    }
  }

  /** How often the window can still be halved. */
  function Halvings(start: nat, first: nat, cut: nat): nat
    requires start <= first < cut
  {
    if cut <= first + 1 then 0 else Log2(cut - start)
  }

  lemma {:induction false} AHalvedWindowHasFewerHalvings(start: nat, first: nat, cut: nat, half: nat)
    requires start <= first && first + 1 < cut
    requires half == start + (cut - start) / 2
    ensures var next := if half < first + 1 then first + 1 else half;
            first < next < cut && Halvings(start, first, next) + 1 <= Halvings(start, first, cut)
  {
  }

  /** What the requests of a pass keep to. */
  ghost predicate RequestsShrink(requests: seq<Request>, first: nat, end: nat, whole: bool, cut: nat) {
    && (forall k :: 0 <= k < |requests| ==> first < requests[k].cut <= end && cut <= requests[k].cut)
    && (forall k :: 0 <= k < |requests| && !requests[k].whole ==> cut < requests[k].cut)
    && (whole ==> requests == []) && Shrinks(requests)
  }

  lemma {:induction false} AnotherRequestShrinks(requests: seq<Request>, whole: bool, cut: nat, again: bool)
    requires Shrinks(requests) && (whole ==> requests == [])
    requires forall k :: 0 <= k < |requests| ==> cut <= requests[k].cut
    requires forall k :: 0 <= k < |requests| && !requests[k].whole ==> cut < requests[k].cut
    ensures Shrinks(requests + [Request(whole, cut, again)])
  {
    var (more, n) := (requests + [Request(whole, cut, again)], |requests|);
    assert more[n] == Request(whole, cut, again);
    assert forall k :: 0 <= k < n ==> more[k] == requests[k];
  }

  lemma {:induction false} ARequestOnceMore(requests: seq<Request>, first: nat, end: nat, whole: bool, cut: nat,
                                            again: bool)
    requires RequestsShrink(requests, first, end, whole, cut) && first < cut <= end
    ensures var more := requests + [Request(whole, cut, again)];
            && Shrinks(more) && (forall k :: 0 <= k < |more| ==> first < more[k].cut <= end && cut <= more[k].cut)
            && (whole ==> RequestsShrink(more, first, end, false, cut))
  {
    AnotherRequestShrinks(requests, whole, cut, again);
    if whole { assert requests + [Request(whole, cut, again)] == [Request(true, cut, again)]; }
  }

  lemma {:induction false} ASmallerWindowNext(requests: seq<Request>, first: nat, end: nat, cut: nat, next: nat)
    requires Shrinks(requests) && next < cut
    requires forall k :: 0 <= k < |requests| ==> first < requests[k].cut <= end && cut <= requests[k].cut
    ensures RequestsShrink(requests, first, end, false, next)
  {
  }

  /** The requests of a pass over the window: each window ends after the first block to summarize, and
      there are at most 2 + floor(log2 n) of them over n blocks. */
  ghost predicate AsksWithin(blocks: seq<Block>, window: (nat, nat), outcome: Outcome, requests: seq<Request>)
    requires window.0 <= window.1 <= |blocks|
  {
    var first := FirstToSummarize(blocks, window.0, window.1);
    && (requests != [] ==> window.0 <= first < window.1 && |requests| <= 2 + Log2(window.1 - window.0))
    && Asked(requests, first, window.1)
    && (outcome.Compacted? ==> first < outcome.cut <= window.1)
  }

  /** What a pass writes: its boundary, its marker, the context of what still runs, and the record of its
      failure, which a pass while the session is idle does not make. */
  datatype Record = Record(boundary: Block, marker: Block, running: Option<Block>, failure: Block, idle: bool) {

    ghost predicate IsProper() {
      && boundary.body.CompactionBoundary? && marker.body.CompactionMarker?
      && (running.Some? ==> running.value.body.Context?) && failure.body.Error?
    }

    /** What follows the transcript's blocks. */
    function End(outcome: Outcome): seq<Block> {
      match outcome
      case Compacted(_) => [marker] + if running.Some? then [running.value] else []
      case NoGain => []
      case PassFailed => if idle then [] else [failure]
    }
  }

  /** A pass that compacts inserts its boundary where the window ends, appends its marker and what still
      runs; one that fails records it. Every message stays. */
  ghost predicate Writes(blocks: seq<Block>, record: Record, outcome: Outcome, after: seq<Block>) {
    && KeepsMessages(blocks, after)
    && match outcome
       case Compacted(cut) =>
         && cut <= |blocks|
         && after == blocks[..cut] + [record.boundary] + blocks[cut..] + [record.marker]
                     + (match record.running case None => [] case Some(running) => [running])
       case NoGain => after == blocks
       case PassFailed => after == if record.idle then blocks else blocks + [record.failure]
  }

  /** The requests of a pass over a window; none while a call executes or when the window holds nothing to
      summarize. */
  method AskOverTheWindow(blocks: seq<Block>, window: (nat, nat), answers: nat -> Answer)
    returns (outcome: Outcome, requests: seq<Request>, copies: nat)
    requires window.0 <= window.1 <= |blocks|
    ensures AsksWithin(blocks, window, outcome, requests)
    ensures AskedInTurn(requests, answers) && copies == Copies(requests)
    ensures if requests == [] then outcome.NoGain? && copies == 0
            else copies > 0 && EndsAs(outcome, requests, answers(copies - 1))
                 && NarrowsIn(blocks, window, requests, answers(copies - 1))
    ensures AnyExecuting(blocks) ==> requests == []
  {
    requests, copies, outcome := [], 0, NoGain;
    var (start, end) := window;
    var first := FirstToSummarize(blocks, start, end);
    if !AnyExecuting(blocks) && first < end {
      outcome, requests, copies := AskUntilItFits(blocks, start, first, end, answers);
    }
  }

  /** One pass. The window always holds its first block; each request carries less than the one before;
      a pass over a window of n blocks asks at most 2 + floor(log2 n) times, each time one copy, and one
      more when that answers with calls alone. */
  method Pass(blocks: seq<Block>, ofModel: Block -> bool, weight: Block -> nat, budget: nat, answers: nat -> Answer,
              record: Record)
    returns (outcome: Outcome, after: seq<Block>, requests: seq<Request>, copies: nat)
    requires record.IsProper()
    ensures AsksWithin(blocks, Window(blocks, ofModel, weight, budget), outcome, requests)
    ensures AskedInTurn(requests, answers)
    ensures if requests == [] then outcome.NoGain? && copies == 0
            else copies > 0 && EndsAs(outcome, requests, answers(copies - 1))
                 && NarrowsIn(blocks, Window(blocks, ofModel, weight, budget), requests, answers(copies - 1))
    ensures copies == |requests| + AskedAgain(requests) && AskedAgain(requests) <= |requests|
    ensures AnyExecuting(blocks) ==> outcome.NoGain? && requests == []
    ensures Writes(blocks, record, outcome, after)
  {
    var window := Window(blocks, ofModel, weight, budget);
    outcome, requests, copies := AskOverTheWindow(blocks, window, answers);
    OneCopyARequestAndOneEachAgain(requests);
    after := WriteTheOutcome(blocks, record, outcome);
  }

  method WriteTheOutcome(blocks: seq<Block>, record: Record, outcome: Outcome) returns (after: seq<Block>)
    requires record.IsProper() && (outcome.Compacted? ==> outcome.cut <= |blocks|)
    ensures Writes(blocks, record, outcome, after)
  {
    after := if outcome.Compacted? then blocks[..outcome.cut] + [record.boundary] + blocks[outcome.cut..] else blocks;
    after := after + record.End(outcome);
    APassKeepsMessages(blocks, record, outcome, after);
    assert record.running.None? && outcome.Compacted? ==> record.End(outcome) == [record.marker] + [];
  }

  /** The requests of a pass over the window narrow until one is answered, or fails. */
  ghost predicate NarrowsIn(blocks: seq<Block>, window: (nat, nat), requests: seq<Request>, last: Answer)
    requires window.0 <= window.1 <= |blocks|
  {
    NarrowsToTheLast(requests, window.0, FirstToSummarize(blocks, window.0, window.1), window.1, |blocks|, last)
  }

  lemma {:induction false} OneMoreAskedInTurn(requests: seq<Request>, one: Request, answers: nat -> Answer)
    requires AskedInTurn(requests, answers) && (one.again <==> answers(Copies(requests)).OnlyCalls?)
    requires requests != [] ==> answers(Copies(requests) - 1).TooLong?
    ensures AskedInTurn(requests + [one], answers)
    ensures Copies(requests + [one]) == Copies(requests) + if one.again then 2 else 1
  {
    assert (requests + [one])[..|requests|] == requests;
  }

  /** The request after one that was too long: the window alone, when the first carried more, or its first
      half while it has one. */
  function NextRequest(blocks: seq<Block>, start: nat, first: nat, whole: bool, cut: nat): (next: Option<nat>)
    requires start <= first < cut <= |blocks|
    ensures next.Some? ==> first < next.value <= cut
    ensures next.Some? && next.value < cut ==> Halvings(start, first, next.value) + 1 <= Halvings(start, first, cut)
    ensures next.Some? && next.value == cut ==> whole && cut < |blocks|
  {
    if whole && cut < |blocks| then Some(cut)
    else if cut <= first + 1 then None
    else
      var half := start + (cut - start) / 2;
      AHalvedWindowHasFewerHalvings(start, first, cut, half);
      Some(if half < first + 1 then first + 1 else half)
  }

  /** A request after one that was too long: of the window alone, when that carried more; else of the first half of
      its window, but for at least one block to summarize. */
  ghost predicate IsNarrower(one: Request, next: Request, start: nat, first: nat, total: nat) {
    && !next.whole
    && if one.whole && one.cut < total then next.cut == one.cut
       else
         && start <= first < next.cut < one.cut
         && (2 * (next.cut - start) <= one.cut - start <= 2 * (next.cut - start) + 1
             || (next.cut == first + 1 && one.cut - start < 2 * (next.cut - start)))
  }

  /** The first request carries the whole history; each other follows one that was too long. */
  ghost predicate Narrow(requests: seq<Request>, start: nat, first: nat, end: nat, total: nat) {
    && (requests != [] ==> requests[0].whole && requests[0].cut == end)
    && forall k :: 0 < k < |requests| ==> IsNarrower(requests[k - 1], requests[k], start, first, total)
  }

  /** No smaller request is left: it summarizes one block alone. */
  ghost predicate IsNarrowest(one: Request, first: nat, total: nat) {
    one.cut == first + 1 && (one.whole ==> one.cut >= total)
  }

  /** A pass gives up on a request that is too long only when none smaller is left. */
  ghost predicate NarrowsToTheLast(requests: seq<Request>, start: nat, first: nat, end: nat, total: nat, last: Answer) {
    Narrow(requests, start, first, end, total)
    && (last.TooLong? && requests != [] ==> IsNarrowest(requests[|requests| - 1], first, total))
  }

  lemma {:induction false} TheNextIsNarrower(blocks: seq<Block>, start: nat, first: nat, one: Request)
    requires start <= first < one.cut <= |blocks|
    ensures var next := NextRequest(blocks, start, first, one.whole, one.cut);
            if next.Some? then forall again :: IsNarrower(one, Request(false, next.value, again), start, first, |blocks|)
            else IsNarrowest(one, first, |blocks|)
  {
  }

  lemma {:induction false} ANarrowerRequestFollows(
      requests: seq<Request>, one: Request, start: nat, first: nat, end: nat, total: nat)
    requires Narrow(requests, start, first, end, total)
    requires if requests == [] then one.whole && one.cut == end
             else IsNarrower(requests[|requests| - 1], one, start, first, total)
    ensures Narrow(requests + [one], start, first, end, total)
  {
  }

  /** Whatever it is asked for again. */
  ghost predicate MayFollow(requests: seq<Request>, whole: bool, cut: nat, start: nat, first: nat, end: nat, total: nat) {
    && Narrow(requests, start, first, end, total)
    && if requests == [] then whole && cut == end
       else forall again :: IsNarrower(requests[|requests| - 1], Request(whole, cut, again), start, first, total)
  }

  /** A request may be made after those before it. */
  ghost predicate MayAsk(requests: seq<Request>, start: nat, first: nat, end: nat, whole: bool, cut: nat)
    requires start <= first < end
  {
    && first < cut <= end && (whole ==> cut == end) && RequestsShrink(requests, first, end, whole, cut)
    && (whole || |requests| + Halvings(start, first, cut) <= 1 + Log2(end - start))
  }

  /** A summary compacts to the last request's window unless it is empty; no summary fails the pass. */
  ghost predicate EndsAs(outcome: Outcome, requests: seq<Request>, last: Answer) {
    match last
    case Written(empty) => requests != [] && outcome == if empty then NoGain else Compacted(requests[|requests| - 1].cut)
    case _ => outcome.PassFailed?
  }

  /** What holds once a request was made. */
  ghost predicate Asked(requests: seq<Request>, first: nat, end: nat) {
    Shrinks(requests) && forall k :: 0 <= k < |requests| ==> first < requests[k].cut <= end
  }

  lemma {:induction false} AWindowIsHalvedSeldom(start: nat, first: nat, cut: nat, end: nat)
    requires start <= first < cut <= end
    ensures Halvings(start, first, cut) <= Log2(end - start)
  {
    Log2Grows(cut - start, end - start);
  }

  lemma {:induction false} Log2Grows(a: nat, b: nat)
    requires a <= b
    ensures Log2(a) <= Log2(b)
    decreases b
  {
    if a > 1 { Log2Grows(a / 2, b / 2); }
  }

  lemma {:induction false} ARequestIsAsked(
      requests: seq<Request>, start: nat, first: nat, end: nat, whole: bool, cut: nat,
                                           again: bool)
    requires start <= first < end && MayAsk(requests, start, first, end, whole, cut)
    ensures var more := requests + [Request(whole, cut, again)];
            Asked(more, first, end) && |more| <= 2 + Log2(end - start)
  {
    ARequestOnceMore(requests, first, end, whole, cut, again);
  }

  lemma {:induction false} ASmallerRequestMayBeAsked(
      requests: seq<Request>, start: nat, first: nat, end: nat, whole: bool,
                                                     cut: nat, again: bool, next: nat)
    requires start <= first < end && MayAsk(requests, start, first, end, whole, cut) && first < next < cut
    requires Halvings(start, first, next) + 1 <= Halvings(start, first, cut)
    ensures MayAsk(requests + [Request(whole, cut, again)], start, first, end, false, next)
  {
    ARequestOnceMore(requests, first, end, whole, cut, again);
    ASmallerWindowNext(requests + [Request(whole, cut, again)], first, end, cut, next);
    AWindowIsHalvedSeldom(start, first, cut, end);
  }

  lemma {:induction false} TheWindowAloneMayBeAsked(requests: seq<Request>, start: nat, first: nat, end: nat, cut: nat,
                                                    again: bool)
    requires start <= first < end && MayAsk(requests, start, first, end, true, cut)
    ensures MayAsk(requests + [Request(true, cut, again)], start, first, end, false, cut)
  {
    ARequestOnceMore(requests, first, end, true, cut, again);
    AWindowIsHalvedSeldom(start, first, cut, end);
  }

  lemma {:induction false} TheNextMayBeAsked(blocks: seq<Block>, requests: seq<Request>, start: nat, first: nat, end: nat,
                                             whole: bool, cut: nat, again: bool)
    requires start <= first < end <= |blocks| && MayAsk(requests, start, first, end, whole, cut)
    requires NextRequest(blocks, start, first, whole, cut).Some?
    ensures MayAsk(requests + [Request(whole, cut, again)], start, first, end, false,
                   NextRequest(blocks, start, first, whole, cut).value)
  {
    var next := NextRequest(blocks, start, first, whole, cut).value;
    if next < cut {
      ASmallerRequestMayBeAsked(requests, start, first, end, whole, cut, again, next);
    } else {
      TheWindowAloneMayBeAsked(requests, start, first, end, cut, again);
    }
  }

  /** How a pass ends with the answer of its last request. */
  function EndOf(answer: Answer, cut: nat): Outcome {
    match answer
    case Written(empty) => if empty then NoGain else Compacted(cut)
    case _ => PassFailed
  }

  lemma {:induction false} TheLastAnswerEndsThePass(requests: seq<Request>, one: Request, answer: Answer, last: Answer)
    requires answer == if last.OnlyCalls? then CopyFailed else last
    ensures EndsAs(EndOf(answer, one.cut), requests + [one], last)
  {
  }

  /** One request more. */
  method AskOnce(requests: seq<Request>, whole: bool, cut: nat, answers: nat -> Answer, asked: nat)
    returns (answer: Answer, more: seq<Request>, copies: nat, again: bool)
    requires AskedInTurn(requests, answers) && asked == Copies(requests)
    requires requests != [] ==> answers(asked - 1).TooLong?
    ensures more == requests + [Request(whole, cut, again)] && AskedInTurn(more, answers) && copies == Copies(more)
    ensures copies > 0 && (answer.TooLong? <==> answers(copies - 1).TooLong?)
    ensures EndsAs(EndOf(answer, cut), more, answers(copies - 1))
  {
    answer, copies, again := Summarize(answers, asked);
    var one := Request(whole, cut, again);
    OneMoreAskedInTurn(requests, one, answers);
    TheLastAnswerEndsThePass(requests, one, answer, answers(copies - 1));
    more := requests + [one];
  }

  /** What holds before a request, and what once it was made. */
  ghost predicate MayAskNow(blocks: seq<Block>, requests: seq<Request>, start: nat, first: nat, end: nat, whole: bool,
                            cut: nat)
    requires start <= first < end
  {
    MayAsk(requests, start, first, end, whole, cut) && MayFollow(requests, whole, cut, start, first, end, |blocks|)
  }

  lemma {:induction false} ARequestIsMade(blocks: seq<Block>, requests: seq<Request>, start: nat, first: nat, end: nat,
                                          one: Request)
    requires start <= first < end <= |blocks| && MayAskNow(blocks, requests, start, first, end, one.whole, one.cut)
    ensures var more, next := requests + [one], NextRequest(blocks, start, first, one.whole, one.cut);
            && Asked(more, first, end) && |more| <= 2 + Log2(end - start)
            && NarrowsToTheLast(more, start, first, end, |blocks|, CopyFailed)
            && if next.Some? then MayAskNow(blocks, more, start, first, end, false, next.value)
               else NarrowsToTheLast(more, start, first, end, |blocks|, TooLong)
  {
    ARequestIsAsked(requests, start, first, end, one.whole, one.cut, one.again);
    ANarrowerRequestFollows(requests, one, start, first, end, |blocks|);
    TheNextIsNarrower(blocks, start, first, one);
    if NextRequest(blocks, start, first, one.whole, one.cut).Some? {
      TheNextMayBeAsked(blocks, requests, start, first, end, one.whole, one.cut, one.again);
    }
  }

  /** A request of that kind comes next after those before it, each of which followed the one before. */
  ghost predicate ComesNext(blocks: seq<Block>, requests: seq<Request>, start: nat, first: nat, end: nat, one: Request) {
    && start <= first < one.cut <= end <= |blocks|
    && if requests == [] then one.whole && one.cut == end
       else
         var (before, last) := (requests[..|requests| - 1], requests[|requests| - 1]);
         && ComesNext(blocks, before, start, first, end, last)
         && !one.whole && NextRequest(blocks, start, first, last.whole, last.cut) == Some(one.cut)
  }

  lemma {:induction false} WhatComesNextMayBeAsked(
      blocks: seq<Block>, requests: seq<Request>, start: nat, first: nat, end: nat, one: Request)
    requires ComesNext(blocks, requests, start, first, end, one)
    ensures MayAskNow(blocks, requests, start, first, end, one.whole, one.cut)
  {
    if requests == [] {
      AWindowIsHalvedSeldom(start, first, one.cut, end);
    } else {
      var (before, last) := (requests[..|requests| - 1], requests[|requests| - 1]);
      assert requests == before + [last];
      WhatComesNextMayBeAsked(blocks, before, start, first, end, last);
      ARequestIsMade(blocks, before, start, first, end, last);
    }
  }

  /** The requests so far, when the last of them answered `last`. */
  ghost predicate AskedSoFar(blocks: seq<Block>, requests: seq<Request>, start: nat, first: nat, end: nat, last: Answer)
    requires start <= end
  {
    && Asked(requests, first, end) && |requests| <= 2 + Log2(end - start)
    && NarrowsToTheLast(requests, start, first, end, |blocks|, last)
  }

  lemma {:induction false} TheRequestsEnd(
      blocks: seq<Block>, requests: seq<Request>, start: nat, first: nat, end: nat, one: Request, last: Answer)
    requires ComesNext(blocks, requests, start, first, end, one)
    requires last.TooLong? ==> NextRequest(blocks, start, first, one.whole, one.cut).None?
    ensures start < end && AskedSoFar(blocks, requests + [one], start, first, end, last)
  {
    WhatComesNextMayBeAsked(blocks, requests, start, first, end, one);
    ARequestIsMade(blocks, requests, start, first, end, one);
  }

  lemma {:induction false} ASmallerOneComesNext(
      blocks: seq<Block>, requests: seq<Request>, start: nat, first: nat, end: nat, one: Request, again: bool)
    requires ComesNext(blocks, requests, start, first, end, one)
    requires NextRequest(blocks, start, first, one.whole, one.cut).Some?
    ensures ComesNext(blocks, requests + [one], start, first, end,
                      Request(false, NextRequest(blocks, start, first, one.whole, one.cut).value, again))
  {
    assert (requests + [one])[..|requests|] == requests;
  }

  /** Once a request is made, whether or not a second copy was asked, a smaller one comes next, or it was the last. */
  lemma {:induction false} ARequestGoesOnOrEnds(
      blocks: seq<Block>, requests: seq<Request>, start: nat, first: nat, end: nat, one: Request, last: Answer)
    requires ComesNext(blocks, requests, start, first, end, one.(again := false))
    ensures start < end
    ensures var next := NextRequest(blocks, start, first, one.whole, one.cut);
            if last.TooLong? && next.Some?
            then next.value <= one.cut && (one.whole || next.value < one.cut)
                 && ComesNext(blocks, requests + [one], start, first, end, Request(false, next.value, false))
            else AskedSoFar(blocks, requests + [one], start, first, end, last)
  {
    assert ComesNext(blocks, requests, start, first, end, one);
    if last.TooLong? && NextRequest(blocks, start, first, one.whole, one.cut).Some? {
      ASmallerOneComesNext(blocks, requests, start, first, end, one, false);
    } else {
      TheRequestsEnd(blocks, requests, start, first, end, one, last);
    }
  }

  /** Makes a request; how the pass ends with it, or where the next one's window ends. */
  method AskAndNarrow(blocks: seq<Block>, start: nat, first: nat, end: nat, whole: bool, cut: nat, requests: seq<Request>,
                      answers: nat -> Answer, asked: nat)
    returns (outcome: Option<Outcome>, more: seq<Request>, copies: nat, next: nat)
    requires ComesNext(blocks, requests, start, first, end, Request(whole, cut, false))
    requires AskedInTurn(requests, answers) && asked == Copies(requests)
    requires requests != [] ==> answers(asked - 1).TooLong?
    ensures more != [] && AskedInTurn(more, answers) && copies == Copies(more) && copies > 0 && start < end
    ensures outcome.Some? ==>
              EndsAs(outcome.value, more, answers(copies - 1))
              && AskedSoFar(blocks, more, start, first, end, answers(copies - 1))
              && (outcome.value.Compacted? ==> first < outcome.value.cut <= end)
    ensures outcome.None? ==>
              answers(copies - 1).TooLong? && next <= cut && (whole || next < cut)
              && ComesNext(blocks, more, start, first, end, Request(false, next, false))
  {
    var answer, again;
    answer, more, copies, again := AskOnce(requests, whole, cut, answers, asked);
    ARequestGoesOnOrEnds(blocks, requests, start, first, end, Request(whole, cut, again), answers(copies - 1));
    var smaller := NextRequest(blocks, start, first, whole, cut);
    if answer.TooLong? && smaller.Some? {
      return None, more, copies, smaller.value;
    }
    return Some(EndOf(answer, cut)), more, copies, cut;
  }

  method AskUntilItFits(blocks: seq<Block>, start: nat, first: nat, end: nat, answers: nat -> Answer)
    returns (outcome: Outcome, requests: seq<Request>, copies: nat)
    requires start <= first < end <= |blocks|
    ensures AskedInTurn(requests, answers) && copies == Copies(requests)
    ensures copies > 0 && EndsAs(outcome, requests, answers(copies - 1))
    ensures AskedSoFar(blocks, requests, start, first, end, answers(copies - 1))
    ensures outcome.Compacted? ==> first < outcome.cut <= end
  {
    requests, copies := [], 0;
    var (whole, cut) := (true, end);
    while true
      invariant ComesNext(blocks, requests, start, first, end, Request(whole, cut, false))
      invariant AskedInTurn(requests, answers) && copies == Copies(requests)
      invariant requests != [] ==> answers(copies - 1).TooLong?
      decreases whole, cut
    {
      var ended, next;
      ended, requests, copies, next := AskAndNarrow(blocks, start, first, end, whole, cut, requests, answers, copies);
      if ended.Some? {
        return ended.value, requests, copies;
      }
      whole, cut := false, next;
    }
  }

  lemma {:induction false} AnEndHoldsNoMessage(record: Record, outcome: Outcome, p: Pattern)
    requires record.IsProper()
    ensures BlockTimes(record.End(outcome), p) == 0
  {
    match outcome
    case Compacted(_) =>
      OneBlock(record.marker, p);
      if record.running.Some? { BlocksWithOneMore([record.marker], record.running.value, p); }
      assert record.running.None? ==> record.End(outcome) == [record.marker];
    case NoGain =>
    case PassFailed => if !record.idle { OneBlock(record.failure, p); }
  }

  lemma {:induction false} ABoundaryPartsNoMessage(blocks: seq<Block>, cut: nat, boundary: Block, p: Pattern)
    requires cut <= |blocks| && boundary.body.CompactionBoundary?
    ensures BlockTimes(blocks[..cut] + [boundary] + blocks[cut..], p) == BlockTimes(blocks, p)
  {
    assert blocks == blocks[..cut] + blocks[cut..];
    BlocksInBoth(blocks[..cut], blocks[cut..], p);
    BlocksInBoth(blocks[..cut] + [boundary], blocks[cut..], p);
    BlocksWithOneMore(blocks[..cut], boundary, p);
  }

  /** What a pass writes parts no message from the transcript. */
  lemma {:induction false} APassKeepsMessages(blocks: seq<Block>, record: Record, outcome: Outcome, after: seq<Block>)
    requires record.IsProper() && (outcome.Compacted? ==> outcome.cut <= |blocks|)
    requires after == (if outcome.Compacted? then blocks[..outcome.cut] + [record.boundary] + blocks[outcome.cut..]
                       else blocks) + record.End(outcome)
    ensures KeepsMessages(blocks, after)
  {
    var before := if outcome.Compacted? then blocks[..outcome.cut] + [record.boundary] + blocks[outcome.cut..] else blocks;
    forall p: Pattern ensures BlockTimes(blocks, p) == BlockTimes(after, p) {
      if outcome.Compacted? { ABoundaryPartsNoMessage(blocks, outcome.cut, record.boundary, p); }
      AnEndHoldsNoMessage(record, outcome, p);
      BlocksInBoth(before, record.End(outcome), p);
    }
  }

  const MAX_FIT_PASSES := 8

  /** What a switch finds before each pass: whether the history is over the target's threshold, and
      whether the pass compacts. */
  datatype Fit = Fit(over: bool, compacts: bool)

  /** Compacts until the history fits the target, at most eight times, and stops when a pass compacts
      nothing; whether any pass compacted. */
  method CompactToFit(fits: nat -> Fit) returns (compacted: bool, passes: nat)
    ensures passes <= MAX_FIT_PASSES
    ensures forall k :: 0 <= k < passes ==> fits(k).over && (k < passes - 1 ==> fits(k).compacts)
    ensures passes < MAX_FIT_PASSES ==> !fits(passes).over || (passes > 0 && !fits(passes - 1).compacts)
    ensures compacted <==> passes > 0 && fits(0).compacts
  {
    compacted, passes := false, 0;
    while passes < MAX_FIT_PASSES && fits(passes).over
      invariant passes <= MAX_FIT_PASSES
      invariant forall k :: 0 <= k < passes ==> fits(k).over && fits(k).compacts
      invariant compacted <==> passes > 0
    {
      passes := passes + 1;
      if !fits(passes - 1).compacts {
        return;
      }
      compacted := true;
    }
  }
}
