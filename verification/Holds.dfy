/**
 What a hold of the bus holds back (crates/agent-session/src/bus.rs): while it lasts no change of the transcript
 or of the phase reaches a listener, and its end lets out all that waited as one step.
 */
module BusHolds {
  import opened Wrappers
  import opened Bus

  /** A step with a change of the transcript or of the phase. */
  ghost predicate ChangesTheSession(events: seq<Event>) {
    exists k :: 0 <= k < |events| && (events[k].kind == TranscriptChanged || events[k].kind == PhaseChanged)
  }

  ghost predicate HasKind(events: seq<Event>, kind: Kind) {
    exists k :: 0 <= k < |events| && events[k].kind == kind
  }

  ghost predicate SharesAKind(events: seq<Event>, kept: seq<Event>) {
    exists k :: 0 <= k < |events| && HasKind(kept, events[k].kind)
  }

  ghost predicate HoldsOutput(events: seq<Event>) {
    HasKind(events, OutputChanged)
  }

  /** `step` is what `events` hold besides output, in its order. */
  ghost predicate IsTheRest(events: seq<Event>, step: seq<Event>) {
    && !HoldsOutput(step)
    && forall kind :: kind != OutputChanged ==> OfKind(step, kind) == OfKind(events, kind)
  }

  /** `output` is the output among `events`. */
  ghost predicate IsTheOutput(events: seq<Event>, output: seq<Event>) {
    OfKind(output, OutputChanged) == OfKind(events, OutputChanged) && forall k :: 0 <= k < |output| ==> output[k].kind == OutputChanged
  }

  /** Whether a hold that keeps `kept` keeps back events given together: they change the session, or some of them
      that is no output is of a kind kept already. */
  ghost predicate IsHeldBack(kept: seq<Event>, events: seq<Event>) {
    ChangesTheSession(events) || exists k :: 0 <= k < |events| && events[k].kind != OutputChanged && HasKind(kept, events[k].kind)
  }

  function AsStep(events: seq<Event>): seq<Step> {
    if events == [] then [] else [events]
  }

  /** Events given during a hold: their output goes out, and the rest waits for the hold's end exactly when it is
      held back; then as a whole, and else it goes out as a whole. */
  ghost predicate GivesDuringAHold(b: State, events: seq<Event>, after: State, output: seq<Event>, step: seq<Event>) {
    && IsTheOutput(events, output) && IsTheRest(events, step)
    && (IsHeldBack(b.kept, events) ==> after == b.(queue := b.queue + AsStep(output), kept := b.kept + step) && step != [])
    && (!IsHeldBack(b.kept, events) ==> after == b.(queue := b.queue + AsStep(output) + AsStep(step)))
  }

  lemma {:induction false} OfKindHasKind(events: seq<Event>, kind: Kind)
    ensures OfKind(events, kind) != [] <==> HasKind(events, kind)
  {
  }

  lemma {:induction false} TheRestHasTheKinds(events: seq<Event>, step: seq<Event>, kind: Kind)
    requires IsTheRest(events, step) && kind != OutputChanged
    ensures HasKind(step, kind) <==> HasKind(events, kind)
  {
    OfKindHasKind(events, kind);
    OfKindHasKind(step, kind);
  }

  lemma {:induction false} PartsOfEvents(events: seq<Event>)
    ensures IsTheOutput(events, Outputs(events)) && IsTheRest(events, Others(events))
  {
    OutputsAndOthers(events, OutputChanged);
    forall kind | kind != OutputChanged ensures OfKind(Others(events), kind) == OfKind(events, kind) {
      OutputsAndOthers(events, kind);
    }
  }

  lemma {:induction false} KeepsExactlyWhenHeldBack(kept: seq<Event>, events: seq<Event>)
    ensures Keeps(kept, Others(events)) <==> IsHeldBack(kept, events)
    ensures IsHeldBack(kept, events) ==> Others(events) != []
  {
    var step := Others(events);
    PartsOfEvents(events);
    if k :| 0 <= k < |step| && (step[k].kind.TranscriptChanged? || step[k].kind.PhaseChanged?
                                || exists j :: 0 <= j < |kept| && kept[j].kind == step[k].kind) {
      TheRestHasTheKinds(events, step, step[k].kind);
      assert HasKind(step, step[k].kind);
      var at :| 0 <= at < |events| && events[at].kind == step[k].kind;
    }
    if k :| 0 <= k < |events| && events[k].kind != OutputChanged
            && (events[k].kind == TranscriptChanged || events[k].kind == PhaseChanged || HasKind(kept, events[k].kind)) {
      assert HasKind(events, events[k].kind);
      TheRestHasTheKinds(events, step, events[k].kind);
      var at :| 0 <= at < |step| && step[at].kind == events[k].kind;
    }
  }

  lemma {:induction false} GivingDuringAHold(b: State, events: seq<Event>)
    requires b.held
    ensures GivesDuringAHold(b, events, Given(b, events), Outputs(events), Others(events))
  {
    PartsOfEvents(events);
    KeepsExactlyWhenHeldBack(b.kept, events);
  }

  // What the queue holds during a hold.

  /** During a hold nothing queued changes the session or is of a kind in `kept`, which waits still. */
  ghost predicate QueueAvoids(b: State, kept: seq<Event>) {
    b.held ==>
      && kept <= b.kept
      && forall i :: 0 <= i < |b.queue| ==> !ChangesTheSession(b.queue[i]) && !SharesAKind(b.queue[i], kept)
  }

  ghost predicate Avoids(step: seq<Event>, kept: seq<Event>) {
    !ChangesTheSession(step) && !SharesAKind(step, kept)
  }

  ghost predicate NoOutputKept(b: State) {
    forall k :: 0 <= k < |b.kept| ==> b.kept[k].kind != OutputChanged
  }

  lemma {:induction false} OutputAvoids(output: seq<Event>, kept: seq<Event>)
    requires forall k :: 0 <= k < |output| ==> output[k].kind == OutputChanged
    requires forall k :: 0 <= k < |kept| ==> kept[k].kind != OutputChanged
    ensures Avoids(output, kept)
  {
  }

  lemma {:induction false} TheRestAvoids(events: seq<Event>, step: seq<Event>, all: seq<Event>, kept: seq<Event>)
    requires IsTheRest(events, step) && !IsHeldBack(all, events) && kept <= all
    ensures Avoids(step, kept)
  {
    forall k | 0 <= k < |step| ensures step[k].kind != TranscriptChanged && step[k].kind != PhaseChanged && !HasKind(kept, step[k].kind) {
      assert HasKind(step, step[k].kind) && step[k].kind != OutputChanged;
      TheRestHasTheKinds(events, step, step[k].kind);
      var at :| 0 <= at < |events| && events[at].kind == step[k].kind;
      assert forall j :: 0 <= j < |kept| ==> all[j] == kept[j];
    }
  }

  lemma {:induction false} GivingAvoids(b: State, events: seq<Event>, kept: seq<Event>)
    requires QueueAvoids(b, kept) && NoOutputKept(b)
    ensures QueueAvoids(Given(b, events), kept) && NoOutputKept(Given(b, events))
  {
    if b.held {
      var (output, step, after) := (Outputs(events), Others(events), Given(b, events));
      GivingDuringAHold(b, events);
      assert forall k :: 0 <= k < |kept| ==> kept[k] == b.kept[k];
      OutputAvoids(output, kept);
      if !IsHeldBack(b.kept, events) { TheRestAvoids(events, step, b.kept, kept); }
      forall i | 0 <= i < |after.queue| ensures Avoids(after.queue[i], kept) {
        if i < |b.queue| { assert after.queue[i] == b.queue[i]; }
      }
    }
  }

  lemma {:induction false} ReactingAvoids(b: State, reaction: Reaction, kept: seq<Event>)
    requires QueueAvoids(b, kept) && NoOutputKept(b)
    ensures QueueAvoids(Reacted(b, reaction), kept) && NoOutputKept(Reacted(b, reaction))
    ensures Reacted(b, reaction).held ==> b.held
  {
    match reaction
    case Gives(events) =>
      GivingAvoids(b, events, kept);
      GivingLeavesTheSlots(b, events);
    case _ =>
  }

  lemma {:induction false} ReactionsAvoid(b: State, reactions: seq<Reaction>, kept: seq<Event>)
    requires QueueAvoids(b, kept) && NoOutputKept(b)
    ensures QueueAvoids(AllReacted(b, reactions), kept) && NoOutputKept(AllReacted(b, reactions))
    ensures AllReacted(b, reactions).held ==> b.held
  {
    if reactions != [] {
      ReactionsAvoid(b, reactions[..|reactions| - 1], kept);
      ReactingAvoids(AllReacted(b, reactions[..|reactions| - 1]), reactions[|reactions| - 1], kept);
    }
  }

  lemma {:induction false} RunningAvoids(b: State, index: nat, reactions: seq<Reaction>, kept: seq<Event>)
    requires index < |b.slots| && QueueAvoids(b, kept) && NoOutputKept(b)
    ensures QueueAvoids(Ran(b, index, reactions), kept) && NoOutputKept(Ran(b, index, reactions))
    ensures Ran(b, index, reactions).held ==> b.held
  {
    ReactionsAvoid(b.(slots := b.slots[index := b.slots[index].(listening := false)]), reactions, kept);
  }

  lemma {:induction false} APassAvoids(b: State, index: nat, script: seq<seq<Reaction>>, kept: seq<Event>)
    requires b.delivering && QueueAvoids(b, kept) && NoOutputKept(b)
    ensures var after := Passed(b, index, script).0;
            QueueAvoids(after, kept) && NoOutputKept(after) && (after.held ==> b.held)
    decreases |script|, |b.slots| - index
  {
    if index < |b.slots| {
      if b.slots[index].listening {
        ReactionsKeepDelivering(b.(slots := b.slots[index := b.slots[index].(listening := false)]), FirstOf(script));
        RunningAvoids(b, index, FirstOf(script), kept);
        APassAvoids(Ran(b, index, FirstOf(script)), index + 1, RestOf(script), kept);
      } else {
        APassAvoids(b, index + 1, script, kept);
      }
    }
  }

  // What is delivered during a hold.

  /** The bus as the step of the `d`th delivery of a drain is taken from the queue. */
  ghost function AtDelivery(b: State, script: seq<seq<Reaction>>, d: nat): State
    requires b.delivering && d < |Drained(b, script).2|
    decreases |script|, |b.queue|
  {
    if d == 0 then b
    else
      APassEndsWithLess(b.(queue := b.queue[1..]), 0, script);
      var (passed, left, _) := Passed(b.(queue := b.queue[1..]), 0, script);
      AtDelivery(passed, left, d - 1)
  }

  /** Whatever a drain delivers while the hold lasts, calls of listeners included, changes nothing of the session
      and is of no kind that waited before. */
  lemma {:induction false} ADrainAvoids(b: State, script: seq<seq<Reaction>>, d: nat, kept: seq<Event>)
    requires b.delivering && QueueAvoids(b, kept) && NoOutputKept(b) && d < |Drained(b, script).2|
    ensures AtDelivery(b, script, d).held ==> Avoids(Drained(b, script).2[d].step, kept)
    decreases |script|, |b.queue|
  {
    if d > 0 {
      var popped := b.(queue := b.queue[1..]);
      APassEndsWithLess(popped, 0, script);
      APassAvoids(popped, 0, script, kept);
      var (passed, left, _) := Passed(popped, 0, script);
      ADrainAvoids(passed, left, d - 1, kept);
    }
  }

  lemma {:induction false} ADrainKeepsWaiting(b: State, script: seq<seq<Reaction>>, kept: seq<Event>)
    requires b.delivering && QueueAvoids(b, kept) && NoOutputKept(b)
    ensures var after := Drained(b, script).0;
            QueueAvoids(after, kept) && NoOutputKept(after) && (after.held ==> b.held)
    decreases |script|, |b.queue|
  {
    if b.queue != [] {
      var popped := b.(queue := b.queue[1..]);
      APassEndsWithLess(popped, 0, script);
      APassAvoids(popped, 0, script, kept);
      var (passed, left, _) := Passed(popped, 0, script);
      ADrainKeepsWaiting(passed, left, kept);
    }
  }

  /** A drain that ends in the hold was in it throughout. */
  lemma {:induction false} HeldThroughout(b: State, script: seq<seq<Reaction>>, d: nat, kept: seq<Event>)
    requires b.delivering && QueueAvoids(b, kept) && NoOutputKept(b) && d < |Drained(b, script).2|
    requires Drained(b, script).0.held
    ensures AtDelivery(b, script, d).held
    decreases |script|, |b.queue|
  {
    var popped := b.(queue := b.queue[1..]);
    APassEndsWithLess(popped, 0, script);
    APassAvoids(popped, 0, script, kept);
    var (passed, left, _) := Passed(popped, 0, script);
    ADrainKeepsWaiting(passed, left, kept);
    if d > 0 {
      HeldThroughout(passed, left, d - 1, kept);
    }
  }

  // Over a run.

  lemma {:induction false} ACallAvoids(b: State, call: Call, kept: seq<Event>)
    requires AtRest(b) && b.held && kept <= b.kept && !call.Holds?
    ensures var (after, deliveries) := Called(b, call);
            after.held ==> kept <= after.kept && forall d :: 0 <= d < |deliveries| ==> Avoids(deliveries[d].step, kept)
  {
    var asked := Reacted(b, call.reaction);
    ReactingAvoids(b, call.reaction, kept);
    if (call.reaction.Gives? || call.reaction.Releases?) && Called(b, call).0.held {
      var draining := asked.(delivering := true);
      ADrainKeepsWaiting(draining, call.script, kept);
      forall d | 0 <= d < |Called(b, call).1| ensures Avoids(Called(b, call).1[d].step, kept) {
        HeldThroughout(draining, call.script, d, kept);
        ADrainAvoids(draining, call.script, d, kept);
      }
    }
  }

  /** Whatever a call from outside delivers before the hold ends, if a listener ends it, avoids what waited. */
  lemma {:induction false} ACallAvoidsUntilARelease(b: State, events: seq<Event>, script: seq<seq<Reaction>>, d: nat)
    requires AtRest(b) && b.held && d < |Called(b, Asks(Gives(events), script)).1|
    ensures var draining := Given(b, events).(delivering := true);
            && d < |Drained(draining, script).2|
            && (AtDelivery(draining, script, d).held ==>
                  Avoids(Called(b, Asks(Gives(events), script)).1[d].step, b.kept))
  {
    GivingAvoids(b, events, b.kept);
    ADrainAvoids(Given(b, events).(delivering := true), script, d, b.kept);
  }

  lemma {:induction false} OnlyAHoldHolds(b: State, call: Call)
    requires AtRest(b) && !call.Holds?
    ensures Called(b, call).0.held ==> b.held
  {
    var asked := Reacted(b, call.reaction);
    if !b.held {
      ReactingAvoids(b, call.reaction, []);
      if call.reaction.Gives? || call.reaction.Releases? {
        ADrainKeepsWaiting(asked.(delivering := true), call.script, []);
      }
    }
  }

  /** No hold starts among the calls from the `i`th on. */
  ghost predicate NoHoldSince(calls: seq<Call>, i: nat) {
    forall m :: i <= m < |calls| ==> !calls[m].Holds?
  }

  /** Over every run: as long as a hold lasts, nothing is delivered that changes the transcript or the phase, nor
      anything of a kind that waited already, also not by what listeners give; what waited waits on. */
  lemma {:induction false} AHoldSendsNoChange(calls: seq<Call>, i: nat)
    requires i <= |calls| && NoHoldSince(calls, i) && AfterCalls(calls).0.held
    ensures var ((at, before), (b, deliveries)) := (AfterCalls(calls[..i]), AfterCalls(calls));
            && at.held && at.kept <= b.kept && before <= deliveries
            && forall d :: |before| <= d < |deliveries| ==> Avoids(deliveries[d].step, at.kept)
  {
    if i == |calls| {
      assert calls[..i] == calls;
    } else {
      var (earlier, last) := (calls[..|calls| - 1], calls[|calls| - 1]);
      assert earlier[..i] == calls[..i];
      EveryRunDeliversEachKindInOrder(earlier, TranscriptChanged);
      OnlyAHoldHolds(AfterCalls(earlier).0, last);
      AHoldSendsNoChange(earlier, i);
      var (at, before) := AfterCalls(calls[..i]);
      var (b, deliveries) := AfterCalls(earlier);
      ACallAvoids(b, last, at.kept);
    }
  }

  // What the hold's end lets out.

  /** The end of a hold delivers what waited first, as one step. */
  lemma {:induction false} AReleaseSendsWhatWaitedAsOneStep(b: State, script: seq<seq<Reaction>>)
    requires AtRest(b) && b.held && b.kept != []
    ensures var (after, deliveries) := Called(b, Asks(Releases, script));
            !after.held && deliveries != [] && deliveries[0].step == b.kept
  {
    var released := b.(held := false, kept := [], queue := [b.kept]);
    assert [] + [b.kept] == [b.kept];
    assert Reacted(b, Releases) == released;
    ADrainKeepsWaiting(released.(delivering := true), script, []);
  }

  lemma {:induction false} WhatIsGivenGrows(calls: seq<Call>, i: nat)
    requires i <= |calls|
    ensures AllGiven(calls[..i]) <= AllGiven(calls)
  {
    if i == |calls| {
      assert calls[..i] == calls;
    } else {
      assert calls[..|calls| - 1][..i] == calls[..i];
      WhatIsGivenGrows(calls[..|calls| - 1], i);
    }
  }

  /** What was given since the first `i` calls. */
  ghost function GivenSince(calls: seq<Call>, i: nat): seq<Event>
    requires i <= |calls|
  {
    WhatIsGivenGrows(calls, i);
    AllGiven(calls)[|AllGiven(calls[..i])|..]
  }

  lemma {:induction false} NoneOfAKind(deliveries: seq<Delivery>, kind: Kind)
    requires forall d :: 0 <= d < |deliveries| ==> !HasKind(deliveries[d].step, kind)
    ensures OfKind(Flat(Steps(deliveries)), kind) == []
  {
    if deliveries != [] {
      var (before, last) := (deliveries[..|deliveries| - 1], deliveries[|deliveries| - 1]);
      NoneOfAKind(before, kind);
      assert before + [last] == deliveries;
      StepsOfBoth(before, [last]);
      FlatOfOne(last);
      KindsOfBoth(Flat(Steps(before)), last.step, kind);
      OfKindHasKind(last.step, kind);
    }
  }

  lemma {:induction false} FlatOfOne(delivery: Delivery)
    ensures Flat(Steps([delivery])) == delivery.step
  {
    assert Steps([delivery]) == [delivery.step] == [] + [delivery.step];
    FlatOfOneMore([], delivery.step);
  }

  lemma {:induction false} MoreWithoutAKind(before: seq<Delivery>, deliveries: seq<Delivery>, kind: Kind)
    requires before <= deliveries
    requires forall d :: |before| <= d < |deliveries| ==> !HasKind(deliveries[d].step, kind)
    ensures OfKind(Flat(Steps(deliveries)), kind) == OfKind(Flat(Steps(before)), kind)
  {
    var more: seq<Delivery> := deliveries[|before|..];
    assert deliveries == before + more;
    forall d | 0 <= d < |more| ensures !HasKind(more[d].step, kind) {
      assert more[d] == deliveries[|before| + d];
    }
    NoneOfAKind(more, kind);
    StepsOfBoth(before, more);
    KindsOfBoth(Flat(Steps(before)), Flat(Steps(more)), kind);
  }

  lemma {:induction false} KindsFrom(all: seq<Event>, first: seq<Event>, kind: Kind)
    requires first <= all
    ensures OfKind(all, kind) == OfKind(first, kind) + OfKind(all[|first|..], kind)
  {
    assert all == first + all[|first|..];
    KindsOfBoth(first, all[|first|..], kind);
  }

  lemma {:induction false} GivenBeforeAndSince(calls: seq<Call>, i: nat, kind: Kind)
    requires i <= |calls|
    ensures OfKind(AllGiven(calls), kind) == OfKind(AllGiven(calls[..i]), kind) + OfKind(GivenSince(calls, i), kind)
  {
    WhatIsGivenGrows(calls, i);
    KindsFrom(AllGiven(calls), AllGiven(calls[..i]), kind);
  }

  lemma {:induction false} NoChangeDelivered(calls: seq<Call>, i: nat, kind: Kind)
    requires i <= |calls| && NoHoldSince(calls, i) && AfterCalls(calls).0.held
    requires kind == TranscriptChanged || kind == PhaseChanged
    ensures OfKind(Flat(Steps(AfterCalls(calls).1)), kind) == OfKind(Flat(Steps(AfterCalls(calls[..i]).1)), kind)
  {
    AHoldSendsNoChange(calls, i);
    MoreWithoutAKind(AfterCalls(calls[..i]).1, AfterCalls(calls).1, kind);
  }

  /** Every change of the transcript or of the phase given during a hold waits, in the order given. */
  lemma {:induction false} AHoldKeepsEveryChange(calls: seq<Call>, i: nat, kind: Kind)
    requires i <= |calls| && NoHoldSince(calls, i) && AfterCalls(calls).0.held
    requires kind == TranscriptChanged || kind == PhaseChanged
    ensures OfKind(AfterCalls(calls).0.kept, kind)
            == OfKind(AfterCalls(calls[..i]).0.kept, kind) + OfKind(GivenSince(calls, i), kind)
  {
    NoChangeDelivered(calls, i, kind);
    EveryRunDeliversEachKindInOrder(calls[..i], kind);
    EveryRunDeliversEachKindInOrder(calls, kind);
    GivenBeforeAndSince(calls, i, kind);
    Cancelled(OfKind(Flat(Steps(AfterCalls(calls).1)), kind), OfKind(AfterCalls(calls).0.kept, kind),
              OfKind(AfterCalls(calls[..i]).0.kept, kind), OfKind(GivenSince(calls, i), kind));
  }

  lemma {:induction false} Cancelled(d: seq<Event>, now: seq<Event>, was: seq<Event>, since: seq<Event>)
    requires d + now == d + was + since
    ensures now == was + since
  {
    assert d + was + since == d + (was + since);
    assert (d + now)[|d|..] == now && (d + (was + since))[|d|..] == was + since;
  }

  /** A kind none of which waits has all been delivered: output always, and any other that no kept step held. */
  lemma {:induction false} OtherKindsAreNotDelayed(calls: seq<Call>, kind: Kind)
    requires kind == OutputChanged || !HasKind(AfterCalls(calls).0.kept, kind)
    ensures OfKind(Flat(Steps(AfterCalls(calls).1)), kind) == OfKind(AllGiven(calls), kind)
  {
    EveryRunDeliversEachKindInOrder(calls, kind);
    OfKindHasKind(AfterCalls(calls).0.kept, kind);
  }

  /** Events given during a hold wait exactly when they are held back, and then together. */
  lemma {:induction false} EventsWaitExactlyWhenHeldBack(b: State, events: seq<Event>)
    requires b.held
    ensures exists output, step :: GivesDuringAHold(b, events, Given(b, events), output, step)
  {
    GivingDuringAHold(b, events);
  }
}
