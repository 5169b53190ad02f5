/** Where a compaction pass cuts its window (crates/agent-transcript/src/compaction.rs). */
module CompactionWindows {
  import opened Wrappers
  import opened Blocks
  import opened SaveRuns
  import opened Compaction

  /** A block of an answer: thinking, a vendor's step, text or a call. */
  ghost predicate IsOfAnAnswer(block: Block) {
    block.body.Thinking? || block.body.Opaque? || block.body.Text? || block.body.ToolCall?
  }

  /** The response at `response` closes the answer that begins at `end`, where its request's content ends. */
  ghost predicate Answers(blocks: seq<Block>, end: nat, response: nat) {
    && Floor(blocks) <= end <= response < |blocks| && blocks[response].body.Response?
    && (forall k :: end <= k < response ==> IsOfAnAnswer(blocks[k]))
    && (end > Floor(blocks) ==> !IsOfAnAnswer(blocks[end - 1]))
  }

  /** A request ends there that one of those models answered. */
  ghost predicate IsEnd(blocks: seq<Block>, end: nat, ofModel: Block -> bool) {
    exists response: nat :: Answers(blocks, end, response) && ofModel(blocks[response])
  }

  ghost predicate LeavesTheBudget(blocks: seq<Block>, end: nat, weight: Block -> nat, budget: nat) {
    end <= |blocks| && Weigh(blocks[end..], weight) >= budget
  }

  /** The last request that one of those models answered ends there. */
  ghost predicate IsTheLastEnd(blocks: seq<Block>, cut: nat, ofModel: Block -> bool) {
    IsEnd(blocks, cut, ofModel) && forall end: nat :: IsEnd(blocks, end, ofModel) ==> end <= cut
  }

  /** The latest such end that leaves the budget is there. */
  ghost predicate IsTheLastWithin(
      blocks: seq<Block>, cut: nat, ofModel: Block -> bool, weight: Block -> nat, budget: nat) {
    && IsEnd(blocks, cut, ofModel) && LeavesTheBudget(blocks, cut, weight, budget)
    && forall end: nat :: IsEnd(blocks, end, ofModel) && LeavesTheBudget(blocks, end, weight, budget) ==> end <= cut
  }

  /** What follows the last response. */
  ghost predicate IsUnanswered(blocks: seq<Block>, answered: nat) {
    && answered <= |blocks| && (answered > 0 ==> blocks[answered - 1].body.Response?)
    && forall k :: answered <= k < |blocks| ==> !blocks[k].body.Response?
  }

  /** The last user block after the last response, or right after that response. */
  ghost predicate IsWhereInputBegins(blocks: seq<Block>, answered: nat, input: nat) {
    && IsUnanswered(blocks, answered) && answered <= input <= |blocks|
    && (forall k :: input < k < |blocks| ==> !blocks[k].body.User?)
    && (input > answered ==> input < |blocks| && blocks[input].body.User?)
  }

  /** A window is cut at the latest end of a request the model answered that leaves the budget after it; else at the
      latest the model answered; else at the latest any model answered. With none answered since the last
      compaction it ends where the unanswered input begins, and not before the last boundary. */
  ghost predicate IsCutRight(
      blocks: seq<Block>, cut: nat, ofModel: Block -> bool, weight: Block -> nat, budget: nat) {
    if exists end: nat :: IsEnd(blocks, end, ofModel) && LeavesTheBudget(blocks, end, weight, budget)
    then IsTheLastWithin(blocks, cut, ofModel, weight, budget)
    else if exists end: nat :: IsEnd(blocks, end, ofModel) then IsTheLastEnd(blocks, cut, ofModel)
    else if exists end: nat :: IsEnd(blocks, end, AnyModel) then IsTheLastEnd(blocks, cut, AnyModel)
    else
      forall answered: nat, input: nat :: IsWhereInputBegins(blocks, answered, input) ==>
        cut == if input < LastBoundary(blocks) then LastBoundary(blocks) else input
  }

  predicate AnyModel(block: Block) {
    true
  }

  // The answered ends.

  lemma {:induction false} AnEndIsWhereTheAnswerStarts(blocks: seq<Block>, end: nat, response: nat)
    requires Floor(blocks) <= response < |blocks| && blocks[response].body.Response?
    ensures Answers(blocks, end, response) <==> end == AnswerStart(blocks, Floor(blocks), response)
  {
  }

  ghost predicate IsAnswered(blocks: seq<Block>, one: (nat, Block), upTo: nat) {
    exists response: nat :: response < upTo && Answers(blocks, one.0, response) && one.1 == blocks[response]
  }

  lemma {:induction false} OnlyAnswersHaveEnds(blocks: seq<Block>, upTo: nat)
    requires Floor(blocks) <= upTo <= |blocks|
    ensures forall one :: one in Answered(blocks, upTo) ==> IsAnswered(blocks, one, upTo)
    decreases upTo
  {
    if upTo > Floor(blocks) {
      OnlyAnswersHaveEnds(blocks, upTo - 1);
      if blocks[upTo - 1].body.Response? {
        AnEndIsWhereTheAnswerStarts(blocks, AnswerStart(blocks, Floor(blocks), upTo - 1), upTo - 1);
      }
    }
  }

  /** Two responses do not share their end: the first of them is no answer. */
  lemma {:induction false} NoTwoAnswersShareAnEnd(blocks: seq<Block>, one: (nat, Block), response: nat)
    requires Floor(blocks) <= response < |blocks| && IsAnswered(blocks, one, response)
    ensures one.0 != AnswerStart(blocks, Floor(blocks), response)
  {
    var earlier: nat :| earlier < response && Answers(blocks, one.0, earlier) && one.1 == blocks[earlier];
  }

  lemma {:induction false} EveryAnswerHasItsEnd(blocks: seq<Block>, upTo: nat, end: nat, response: nat)
    requires Floor(blocks) <= upTo <= |blocks| && response < upTo && Answers(blocks, end, response)
    ensures (end, blocks[response]) in Answered(blocks, upTo)
    decreases upTo
  {
    var before := Answered(blocks, upTo - 1);
    if response < upTo - 1 {
      EveryAnswerHasItsEnd(blocks, upTo - 1, end, response);
    } else {
      AnEndIsWhereTheAnswerStarts(blocks, end, response);
      OnlyAnswersHaveEnds(blocks, upTo - 1);
      if before != [] {
        assert before[|before| - 1] in before;
        NoTwoAnswersShareAnEnd(blocks, before[|before| - 1], response);
      }
    }
  }

  // Those of one model.

  lemma {:induction false} AnEndOfTheModel(ends: seq<(nat, Block)>, ofModel: Block -> bool, one: (nat, Block))
    requires one in ends && ofModel(one.1)
    ensures one.0 in OfModel(ends, ofModel)
  {
    if one != ends[|ends| - 1] {
      AnEndOfTheModel(ends[..|ends| - 1], ofModel, one);
    }
  }

  lemma {:induction false} OnlyEndsOfTheModel(ends: seq<(nat, Block)>, ofModel: Block -> bool, end: nat)
    returns (one: (nat, Block))
    requires end in OfModel(ends, ofModel)
    ensures one in ends && one.0 == end && ofModel(one.1)
  {
    var (before, last) := (ends[..|ends| - 1], ends[|ends| - 1]);
    if end in OfModel(before, ofModel) {
      one := OnlyEndsOfTheModel(before, ofModel, end);
    } else {
      one := last;
    }
  }

  /** Ascending, so that the last of them is the latest. */
  ghost predicate Ascends(ends: seq<nat>) {
    forall j, k :: 0 <= j < k < |ends| ==> ends[j] < ends[k]
  }

  lemma {:induction false} EndsOfTheModelAscend(ends: seq<(nat, Block)>, ofModel: Block -> bool)
    requires forall j, k :: 0 <= j < k < |ends| ==> ends[j].0 < ends[k].0
    ensures Ascends(OfModel(ends, ofModel))
  {
    if ends != [] {
      var (before, last) := (ends[..|ends| - 1], ends[|ends| - 1]);
      EndsOfTheModelAscend(before, ofModel);
      forall end | end in OfModel(before, ofModel) ensures end < last.0 {
        var one := OnlyEndsOfTheModel(before, ofModel, end);
      }
      assert forall j :: 0 <= j < |OfModel(before, ofModel)| ==> OfModel(before, ofModel)[j] in OfModel(before, ofModel);
    }
  }

  lemma {:induction false} TheEndsAreThoseOfTheModel(blocks: seq<Block>, ofModel: Block -> bool, end: nat)
    ensures end in OfModel(Answered(blocks, |blocks|), ofModel) <==> IsEnd(blocks, end, ofModel)
  {
    var ends := Answered(blocks, |blocks|);
    if end in OfModel(ends, ofModel) {
      var one := OnlyEndsOfTheModel(ends, ofModel, end);
      OnlyAnswersHaveEnds(blocks, |blocks|);
      assert IsAnswered(blocks, one, |blocks|);
    }
    if IsEnd(blocks, end, ofModel) {
      var response: nat :| Answers(blocks, end, response) && ofModel(blocks[response]);
      EveryAnswerHasItsEnd(blocks, |blocks|, end, response);
      AnEndOfTheModel(ends, ofModel, (end, blocks[response]));
    }
  }

  lemma {:induction false} TheLastIsTheLatest(blocks: seq<Block>, ofModel: Block -> bool, ends: seq<nat>)
    requires Ascends(ends) && forall end: nat :: end in ends <==> IsEnd(blocks, end, ofModel)
    ensures ends != [] ==> IsTheLastEnd(blocks, ends[|ends| - 1], ofModel)
    ensures ends == [] ==> forall end: nat :: !IsEnd(blocks, end, ofModel)
  {
    if ends != [] { assert ends[|ends| - 1] in ends; }
  }

  lemma {:induction false} TheLatestWithin(blocks: seq<Block>, ends: seq<nat>, weight: Block -> nat, budget: nat)
    requires Ascends(ends) && forall k :: 0 <= k < |ends| ==> ends[k] <= |blocks|
    ensures var latest := LatestWithin(blocks, ends, weight, budget);
            forall end :: end in ends && LeavesTheBudget(blocks, end, weight, budget) ==> latest.Some? && end <= latest.value
  {
    if ends != [] {
      var (before, last) := (ends[..|ends| - 1], ends[|ends| - 1]);
      assert forall end :: end in ends ==> end in before || end == last;
      TheLatestWithin(blocks, before, weight, budget);
    }
  }

  // Where the unanswered input begins.

  lemma {:induction false} AfterTheLastResponse(blocks: seq<Block>)
    ensures IsUnanswered(blocks, AfterLastResponse(blocks))
  {
    if blocks != [] && !blocks[|blocks| - 1].body.Response? {
      AfterTheLastResponse(blocks[..|blocks| - 1]);
      assert forall k :: 0 <= k < |blocks| - 1 ==> blocks[..|blocks| - 1][k] == blocks[k];
    }
  }

  lemma {:induction false} TheLastUser(blocks: seq<Block>, from: nat, end: nat)
    requires from <= end <= |blocks|
    ensures var at := LastUser(blocks, from, end);
            && (forall k :: at < k < end ==> !blocks[k].body.User?) && (at > from ==> at < end && blocks[at].body.User?)
            && (at == from ==> forall k :: from < k < end ==> !blocks[k].body.User?)
  {
    if end > from && !blocks[end - 1].body.User? {
      TheLastUser(blocks, from, end - 1);
    }
  }

  /** Those describe one position, which is the one a window ends at. */
  lemma {:induction false} TheInputBegins(blocks: seq<Block>, answered: nat, input: nat)
    ensures IsWhereInputBegins(blocks, answered, input) <==>
              answered == AfterLastResponse(blocks) && input == UnansweredInput(blocks)
  {
    var (last, user) := (AfterLastResponse(blocks), UnansweredInput(blocks));
    AfterTheLastResponse(blocks);
    TheLastUser(blocks, last, |blocks|);
    assert IsUnanswered(blocks, answered) ==> answered == last;
  }

  /** With requests of the model, the cut is the latest of their ends within the budget, or the latest. */
  lemma {:induction false} TheCutIsOfTheModel(
      blocks: seq<Block>, ofModel: Block -> bool, weight: Block -> nat, budget: nat, ends: seq<nat>)
    requires Ascends(ends) && ends != [] && (forall end: nat :: end in ends <==> IsEnd(blocks, end, ofModel))
    requires forall k :: 0 <= k < |ends| ==> ends[k] <= |blocks|
    ensures var within := LatestWithin(blocks, ends, weight, budget);
            IsCutRight(blocks, if within.Some? then within.value else ends[|ends| - 1], ofModel, weight, budget)
  {
    TheLastIsTheLatest(blocks, ofModel, ends);
    TheLatestWithin(blocks, ends, weight, budget);
    var within := LatestWithin(blocks, ends, weight, budget);
    if within.Some? {
      assert IsTheLastWithin(blocks, within.value, ofModel, weight, budget);
    }
  }

  lemma {:induction false} TheEndsOfTheModel(blocks: seq<Block>, ofModel: Block -> bool)
    ensures var ends := EndsOf(blocks, ofModel);
            Ascends(ends) && forall end: nat :: end in ends <==> IsEnd(blocks, end, ofModel)
  {
    EndsOfTheModelAscend(Answered(blocks, |blocks|), ofModel);
    forall end: nat ensures end in EndsOf(blocks, ofModel) <==> IsEnd(blocks, end, ofModel) {
      TheEndsAreThoseOfTheModel(blocks, ofModel, end);
    }
  }

  lemma {:induction false} TheWindowIsOfTheModel(
      blocks: seq<Block>, ofModel: Block -> bool, weight: Block -> nat, budget: nat)
    requires EndsOf(blocks, ofModel) != []
    ensures IsCutRight(blocks, Window(blocks, ofModel, weight, budget).1, ofModel, weight, budget)
  {
    TheEndsOfTheModel(blocks, ofModel);
    TheCutIsOfTheModel(blocks, ofModel, weight, budget, EndsOf(blocks, ofModel));
    AnEndMeansAnAnswer(blocks, ofModel);
  }

  lemma {:induction false} AnEndMeansAnAnswer(blocks: seq<Block>, ofModel: Block -> bool)
    ensures EndsOf(blocks, ofModel) != [] ==> Answered(blocks, |blocks|) != []
  {
  }

  /** Every pass cuts its window where it should. */
  lemma {:induction false} TheWindowIsCutAtTheLatestEnd(
      blocks: seq<Block>, ofModel: Block -> bool, weight: Block -> nat, budget: nat)
    ensures IsCutRight(blocks, Window(blocks, ofModel, weight, budget).1, ofModel, weight, budget)
  {
    if EndsOf(blocks, ofModel) != [] {
      TheWindowIsOfTheModel(blocks, ofModel, weight, budget);
    } else {
      TheEndsOfTheModel(blocks, ofModel);
      TheLastIsTheLatest(blocks, ofModel, EndsOf(blocks, ofModel));
      TheCutIsOfNoModel(blocks, ofModel, weight, budget);
    }
  }

  lemma {:induction false} TheCutIsOfNoModel(
      blocks: seq<Block>, ofModel: Block -> bool, weight: Block -> nat, budget: nat)
    requires EndsOf(blocks, ofModel) == [] && forall end: nat :: !IsEnd(blocks, end, ofModel)
    ensures IsCutRight(blocks, Window(blocks, ofModel, weight, budget).1, ofModel, weight, budget)
  {
    TheLastOfAnyModel(blocks);
    forall at: nat, input: nat | IsWhereInputBegins(blocks, at, input) ensures input == UnansweredInput(blocks) {
      TheInputBegins(blocks, at, input);
    }
  }

  lemma {:induction false} NoEndIsLater(blocks: seq<Block>, end: nat)
    requires IsEnd(blocks, end, AnyModel)
    ensures var answered := Answered(blocks, |blocks|);
            answered != [] && end <= answered[|answered| - 1].0
  {
    var response: nat :| Answers(blocks, end, response) && AnyModel(blocks[response]);
    EveryAnswerHasItsEnd(blocks, |blocks|, end, response);
  }

  lemma {:induction false} TheLastAnswerEnds(blocks: seq<Block>)
    ensures var answered := Answered(blocks, |blocks|);
            answered != [] ==> IsEnd(blocks, answered[|answered| - 1].0, AnyModel)
  {
    var answered := Answered(blocks, |blocks|);
    OnlyAnswersHaveEnds(blocks, |blocks|);
    if answered != [] {
      var one := answered[|answered| - 1];
      assert one in answered;
      var response: nat :| response < |blocks| && Answers(blocks, one.0, response) && one.1 == blocks[response];
      assert AnyModel(blocks[response]);
    }
  }

  lemma {:induction false} TheLastOfAnyModel(blocks: seq<Block>)
    ensures var answered := Answered(blocks, |blocks|);
            && (answered != [] ==> IsTheLastEnd(blocks, answered[|answered| - 1].0, AnyModel))
            && (answered == [] ==> forall end: nat :: !IsEnd(blocks, end, AnyModel))
  {
    TheLastAnswerEnds(blocks);
    forall end: nat | IsEnd(blocks, end, AnyModel)
      ensures var answered := Answered(blocks, |blocks|);
              answered != [] && end <= answered[|answered| - 1].0
    {
      NoEndIsLater(blocks, end);
    }
  }
}
