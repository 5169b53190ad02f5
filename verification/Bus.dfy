/**
 Delivery of a session's events (crates/agent-session/src/bus.rs): the events of a change are a step
 that reaches every listener, a listener may call back, and a hold keeps some steps back.
 */
module Bus {
  import opened Wrappers

  datatype Kind = TranscriptChanged | PhaseChanged | OutputChanged | OtherKind(number: nat)

  datatype Event = Event(kind: Kind, body: nat)

  type Step = seq<Event>

  type ListenerId = nat

  /** A listener, `listening` but while it runs or once it is removed. */
  datatype Slot = Slot(id: ListenerId, listening: bool, removed: bool)

  datatype State = State(slots: seq<Slot>, queue: seq<Step>, kept: seq<Event>, delivering: bool, held: bool,
                         nextId: ListenerId)

  /** What a listener does when it calls back. A hold starts outside a delivery. */
  datatype Reaction =
    | Gives(events: seq<Event>)
    | Subscribes
    | Unsubscribes(id: ListenerId)
    | Releases

  function OfKind(events: seq<Event>, kind: Kind): (those: seq<Event>)
    ensures those == [] <==> forall k :: 0 <= k < |events| ==> events[k].kind != kind
  {
    if events == [] then []
    else
      OfKind(events[..|events| - 1], kind)
      + if events[|events| - 1].kind == kind then [events[|events| - 1]] else []
  }

  function Flat(steps: seq<Step>): seq<Event> {
    if steps == [] then [] else Flat(steps[..|steps| - 1]) + steps[|steps| - 1]
  }

  function Outputs(events: seq<Event>): (output: seq<Event>)
    ensures forall k :: 0 <= k < |output| ==> output[k].kind.OutputChanged?
  {
    if events == [] then []
    else
      var (before, last) := (Outputs(events[..|events| - 1]), events[|events| - 1]);
      if last.kind.OutputChanged? then before + [last] else before
  }

  function Others(events: seq<Event>): (step: seq<Event>)
    ensures forall k :: 0 <= k < |step| ==> !step[k].kind.OutputChanged?
  {
    if events == [] then []
    else
      var (before, last) := (Others(events[..|events| - 1]), events[|events| - 1]);
      if last.kind.OutputChanged? then before else before + [last]
  }

  /** What a hold keeps back: a step with a change of transcript or phase, or with an event of a kind that
      is kept already. */
  predicate Keeps(kept: seq<Event>, step: Step) {
    exists k :: 0 <= k < |step| && (step[k].kind.TranscriptChanged? || step[k].kind.PhaseChanged?
                                    || exists j :: 0 <= j < |kept| && kept[j].kind == step[k].kind)
  }

  function Queued(b: State, step: Step): State {
    if step == [] then b else b.(queue := b.queue + [step])
  }

  /** The bus once `events` wait their turn. */
  function Given(b: State, events: seq<Event>): State {
    if !b.held then Queued(b, events)
    else
      var (output, step) := (Outputs(events), Others(events));
      var b := Queued(b, output);
      if step != [] && Keeps(b.kept, step) then b.(kept := b.kept + step) else Queued(b, step)
  }

  function Subscribed(b: State): State {
    b.(slots := b.slots + [Slot(b.nextId, true, false)], nextId := b.nextId + 1)
  }

  function Retained(slots: seq<Slot>): (retained: seq<Slot>)
    ensures forall slot :: slot in retained <==> slot in slots && !slot.removed
  {
    if slots == [] then []
    else
      assert slots == slots[..|slots| - 1] + [slots[|slots| - 1]];
      var (before, last) := (Retained(slots[..|slots| - 1]), slots[|slots| - 1]);
      if last.removed then before else before + [last]
  }

  /** The position of the listener `id`, or the number of slots when there is none. */
  function SlotOf(slots: seq<Slot>, id: ListenerId): (at: nat)
    ensures at <= |slots|
    ensures at < |slots| ==> slots[at].id == id
    ensures forall k :: 0 <= k < at ==> slots[k].id != id
  {
    if slots == [] || slots[0].id == id then 0 else 1 + SlotOf(slots[1..], id)
  }

  function Unsubscribed(b: State, id: ListenerId): State {
    var at := SlotOf(b.slots, id);
    var slots := if at < |b.slots| then b.slots[at := Slot(id, false, true)] else b.slots;
    b.(slots := if b.delivering then slots else Retained(slots))
  }

  /** The bus once what it kept waits its turn as one step. */
  function Released(b: State): State {
    if b.held then Queued(b.(held := false, kept := []), b.kept) else b
  }

  function Reacted(b: State, reaction: Reaction): State {
    match reaction
    case Gives(events) => Given(b, events)
    case Subscribes => Subscribed(b)
    case Unsubscribes(id) => Unsubscribed(b, id)
    case Releases => Released(b)
  }

  function AllReacted(b: State, reactions: seq<Reaction>): State {
    if reactions == [] then b
    else Reacted(AllReacted(b, reactions[..|reactions| - 1]), reactions[|reactions| - 1])
  }

  // A delivery. `script` says what the listeners do, call after call; past its end they do nothing.

  datatype Delivery = Delivery(step: Step, receivers: seq<ListenerId>)

  function FirstOf(script: seq<seq<Reaction>>): seq<Reaction> {
    if script == [] then [] else script[0]
  }

  function RestOf(script: seq<seq<Reaction>>): seq<seq<Reaction>> {
    if script == [] then [] else script[1..]
  }

  /** The bus after the listener at `index` ran, taken out of its slot meanwhile. */
  function Ran(b: State, index: nat, reactions: seq<Reaction>): State
    requires index < |b.slots|
  {
    var id := b.slots[index].id;
    var called := AllReacted(b.(slots := b.slots[index := b.slots[index].(listening := false)]), reactions);
    var at := SlotOf(called.slots, id);
    if at < |called.slots| && !called.slots[at].removed
    then called.(slots := called.slots[at := called.slots[at].(listening := true)])
    else called
  }

  /** A step goes to the listeners from `index` on. */
  function Passed(b: State, index: nat, script: seq<seq<Reaction>>): (r: (State, seq<seq<Reaction>>, seq<ListenerId>))
    requires b.delivering
    decreases |script|, |b.slots| - index
  {
    if index >= |b.slots| then (b, script, [])
    else if !b.slots[index].listening then Passed(b, index + 1, script)
    else
      ReactionsKeepDelivering(b.(slots := b.slots[index := b.slots[index].(listening := false)]), FirstOf(script));
      var (after, left, receivers) := Passed(Ran(b, index, FirstOf(script)), index + 1, RestOf(script));
      (after, left, [b.slots[index].id] + receivers)
  }

  lemma {:induction false} ReactionsKeepDelivering(b: State, reactions: seq<Reaction>)
    requires b.delivering
    ensures AllReacted(b, reactions).delivering
    ensures |b.slots| <= |AllReacted(b, reactions).slots|
  {
    if reactions != [] {
      ReactionsKeepDelivering(b, reactions[..|reactions| - 1]);
    }
  }

  lemma {:induction false} APassEndsWithLess(b: State, index: nat, script: seq<seq<Reaction>>)
    requires b.delivering
    ensures var (after, left, receivers) := Passed(b, index, script);
            && after.delivering && |left| <= |script| && left == script[|script| - |left|..]
            && (left == script ==> after.queue == b.queue)
    decreases |script|, |b.slots| - index
  {
    if index < |b.slots| {
      if b.slots[index].listening {
        ReactionsKeepDelivering(b.(slots := b.slots[index := b.slots[index].(listening := false)]), FirstOf(script));
        APassEndsWithLess(Ran(b, index, FirstOf(script)), index + 1, RestOf(script));
      } else {
        APassEndsWithLess(b, index + 1, script);
      }
    }
  }

  /** The queue's steps go to the listeners one after the other, with those the listeners give. */
  function Drained(b: State, script: seq<seq<Reaction>>): (r: (State, seq<seq<Reaction>>, seq<Delivery>))
    requires b.delivering
    decreases |script|, |b.queue|
  {
    if b.queue == [] then (b, script, [])
    else
      var step := b.queue[0];
      APassEndsWithLess(b.(queue := b.queue[1..]), 0, script);
      var (passed, left, receivers) := Passed(b.(queue := b.queue[1..]), 0, script);
      var (after, rest, deliveries) := Drained(passed, left);
      (after, rest, [Delivery(step, receivers)] + deliveries)
  }

  /** What a call from outside a delivery ends with: every step that waits has reached the listeners. */
  function Delivered(b: State, script: seq<seq<Reaction>>): (r: (State, seq<Delivery>)) {
    var (after, _, deliveries) := Drained(b.(delivering := true), script);
    (after.(slots := Retained(after.slots), delivering := false), deliveries)
  }

  // The events of a kind reach the listeners in the order they were given.

  /** The events a reaction gives. */
  function GivenBy(reactions: seq<Reaction>): seq<Event> {
    if reactions == [] then []
    else
      GivenBy(reactions[..|reactions| - 1])
      + if reactions[|reactions| - 1].Gives? then reactions[|reactions| - 1].events else []
  }

  function GivenByAll(script: seq<seq<Reaction>>): seq<Event> {
    if script == [] then [] else GivenBy(script[0]) + GivenByAll(script[1..])
  }

  /** The bus keeps nothing but in a hold, and no output. */
  ghost predicate KeepsInHold(b: State) {
    && (!b.held ==> b.kept == [])
    && forall k :: 0 <= k < |b.kept| ==> !b.kept[k].kind.OutputChanged?
  }

  /** The events of a kind that wait, in the order they will go. */
  function Waiting(b: State, kind: Kind): seq<Event> {
    OfKind(Flat(b.queue), kind) + OfKind(b.kept, kind)
  }

  lemma {:induction false} KindsOfBoth(a: seq<Event>, b: seq<Event>, kind: Kind)
    ensures OfKind(a + b, kind) == OfKind(a, kind) + OfKind(b, kind)
  {
    if b == [] {
      assert a + b == a;
    } else {
      assert (a + b)[..|a + b| - 1] == a + b[..|b| - 1];
      KindsOfBoth(a, b[..|b| - 1], kind);
    }
  }

  lemma {:induction false} FlatOfOneMore(steps: seq<Step>, step: Step)
    ensures Flat(steps + [step]) == Flat(steps) + step
  {
    assert (steps + [step])[..|steps|] == steps;
  }

  lemma {:induction false} FlatOfTheFirst(steps: seq<Step>)
    requires steps != []
    ensures Flat(steps) == steps[0] + Flat(steps[1..])
  {
    if |steps| > 1 {
      var before := steps[..|steps| - 1];
      FlatOfTheFirst(before);
      assert before[1..] == steps[1..][..|steps| - 2];
      assert Flat(steps[1..]) == Flat(before[1..]) + steps[|steps| - 1];
    }
  }

  lemma {:induction false} OutputsAndOthers(events: seq<Event>, kind: Kind)
    ensures OfKind(Outputs(events), kind) == if kind.OutputChanged? then OfKind(events, kind) else []
    ensures OfKind(Others(events), kind) == if kind.OutputChanged? then [] else OfKind(events, kind)
  {
    if events != [] {
      var (before, last) := (events[..|events| - 1], events[|events| - 1]);
      OutputsAndOthers(before, kind);
      KindsOfBoth(Outputs(before), [last], kind);
      KindsOfBoth(Others(before), [last], kind);
      OfOne(last, kind);
    }
  }

  lemma {:induction false} OfOne(event: Event, kind: Kind)
    ensures OfKind([event], kind) == if event.kind == kind then [event] else []
  {
    assert [event][..0] == [];
    assert OfKind([event], kind) == OfKind([], kind) + if event.kind == kind then [event] else [];
  }

  lemma {:induction false} QueuingWaitsLast(b: State, step: Step, kind: Kind)
    requires OfKind(step, kind) == [] || OfKind(b.kept, kind) == []
    ensures Waiting(Queued(b, step), kind) == Waiting(b, kind) + OfKind(step, kind)
  {
    FlatOfOneMore(b.queue, step);
    KindsOfBoth(Flat(b.queue), step, kind);
  }

  lemma {:induction false} KeepingWaitsLast(b: State, step: Step, kind: Kind)
    ensures Waiting(b.(kept := b.kept + step), kind) == Waiting(b, kind) + OfKind(step, kind)
  {
    KindsOfBoth(b.kept, step, kind);
    InThree(OfKind(Flat(b.queue), kind), OfKind(b.kept, kind), OfKind(step, kind));
  }

  lemma {:induction false} InThree(a: seq<Event>, b: seq<Event>, c: seq<Event>)
    ensures a + (b + c) == (a + b) + c
  {
  }

  lemma {:induction false} KeptOfAnotherKind(kept: seq<Event>, step: Step, kind: Kind)
    requires !Keeps(kept, step)
    ensures OfKind(step, kind) == [] || OfKind(kept, kind) == []
  {
  }

  /** A step in parts, the output first, waits as the whole step would. */
  lemma {:induction false} PartsWaitLast(b: State, output: Step, step: Step, events: seq<Event>, kind: Kind)
    requires KeepsInHold(b) && b.held
    requires forall k :: 0 <= k < |step| ==> !step[k].kind.OutputChanged?
    requires forall k :: 0 <= k < |output| ==> output[k].kind.OutputChanged?
    requires OfKind(events, kind) == OfKind(output, kind) + OfKind(step, kind)
    ensures var queued := Queued(b, output);
            var after := if step != [] && Keeps(queued.kept, step) then queued.(kept := queued.kept + step)
                         else Queued(queued, step);
            KeepsInHold(after) && Waiting(after, kind) == Waiting(b, kind) + OfKind(events, kind)
  {
    QueuingWaitsLast(b, output, kind);
    OthersWaitLast(Queued(b, output), step, kind);
    InThree(Waiting(b, kind), OfKind(output, kind), OfKind(step, kind));
  }

  /** Events given wait after those of their kind given before, whether or not a hold keeps them. */
  lemma {:induction false} GivingWaitsLast(b: State, events: seq<Event>, kind: Kind)
    requires KeepsInHold(b)
    ensures KeepsInHold(Given(b, events))
    ensures Waiting(Given(b, events), kind) == Waiting(b, kind) + OfKind(events, kind)
  {
    if !b.held {
      QueuingWaitsLast(b, events, kind);
    } else {
      OutputsAndOthers(events, kind);
      assert OfKind(events, kind) == OfKind(Outputs(events), kind) + OfKind(Others(events), kind);
      PartsWaitLast(b, Outputs(events), Others(events), events, kind);
    }
  }

  lemma {:induction false} OthersWaitLast(b: State, step: Step, kind: Kind)
    requires KeepsInHold(b) && b.held && forall k :: 0 <= k < |step| ==> !step[k].kind.OutputChanged?
    ensures var after := if step != [] && Keeps(b.kept, step) then b.(kept := b.kept + step) else Queued(b, step);
            KeepsInHold(after) && Waiting(after, kind) == Waiting(b, kind) + OfKind(step, kind)
  {
    if step != [] && Keeps(b.kept, step) {
      KeepingWaitsLast(b, step, kind);
    } else {
      if step != [] { KeptOfAnotherKind(b.kept, step, kind); }
      QueuingWaitsLast(b, step, kind);
    }
  }

  lemma {:induction false} ReleasingKeepsTheOrder(b: State, kind: Kind)
    requires KeepsInHold(b)
    ensures KeepsInHold(Released(b)) && Waiting(Released(b), kind) == Waiting(b, kind)
  {
    if b.held {
      FlatOfOneMore(b.queue, b.kept);
      KindsOfBoth(Flat(b.queue), b.kept, kind);
    }
  }

  lemma {:induction false} ReactionsWaitLast(b: State, reactions: seq<Reaction>, kind: Kind)
    requires KeepsInHold(b)
    ensures KeepsInHold(AllReacted(b, reactions))
    ensures Waiting(AllReacted(b, reactions), kind) == Waiting(b, kind) + OfKind(GivenBy(reactions), kind)
  {
    if reactions != [] {
      var (earlier, last) := (reactions[..|reactions| - 1], reactions[|reactions| - 1]);
      ReactionsWaitLast(b, earlier, kind);
      var before := AllReacted(b, earlier);
      match last {
        case Gives(events) =>
          GivingWaitsLast(before, events, kind);
          KindsOfBoth(GivenBy(earlier), events, kind);
          InThree(Waiting(b, kind), OfKind(GivenBy(earlier), kind), OfKind(events, kind));
        case Releases =>
          ReleasingKeepsTheOrder(before, kind);
          assert GivenBy(earlier) + [] == GivenBy(earlier);
        case _ =>
          assert GivenBy(earlier) + [] == GivenBy(earlier);
      }
    }
  }

  /** The part of a script that was run. */
  function RanOf(script: seq<seq<Reaction>>, left: seq<seq<Reaction>>): seq<seq<Reaction>>
    requires |left| <= |script|
  {
    script[..|script| - |left|]
  }

  lemma {:induction false} RunningKeepsTheOrder(b: State, index: nat, reactions: seq<Reaction>, kind: Kind)
    requires b.delivering && KeepsInHold(b) && index < |b.slots|
    ensures var ran := Ran(b, index, reactions);
            && ran.delivering && |b.slots| <= |ran.slots| && KeepsInHold(ran)
            && Waiting(ran, kind) == Waiting(b, kind) + OfKind(GivenBy(reactions), kind)
  {
    var taken := b.(slots := b.slots[index := b.slots[index].(listening := false)]);
    ReactionsKeepDelivering(taken, reactions);
    ReactionsWaitLast(taken, reactions, kind);
  }

  lemma {:induction false} GivenInTurn(script: seq<seq<Reaction>>, left: seq<seq<Reaction>>, kind: Kind)
    requires |left| <= |RestOf(script)|
    ensures OfKind(GivenByAll(RanOf(script, left)), kind)
            == OfKind(GivenBy(FirstOf(script)), kind) + OfKind(GivenByAll(RanOf(RestOf(script), left)), kind)
  {
    if script != [] {
      assert RanOf(script, left)[1..] == RanOf(RestOf(script), left);
      KindsOfBoth(GivenBy(script[0]), GivenByAll(RanOf(RestOf(script), left)), kind);
    }
  }

  lemma {:induction false} APassKeepsTheOrder(b: State, index: nat, script: seq<seq<Reaction>>, kind: Kind)
    requires b.delivering && KeepsInHold(b)
    ensures var (after, left, _) := Passed(b, index, script);
            && KeepsInHold(after) && |left| <= |script|
            && Waiting(after, kind) == Waiting(b, kind) + OfKind(GivenByAll(RanOf(script, left)), kind)
    decreases |script|, |b.slots| - index
  {
    if index < |b.slots| {
      if b.slots[index].listening {
        RunningKeepsTheOrder(b, index, FirstOf(script), kind);
        var ran := Ran(b, index, FirstOf(script));
        APassKeepsTheOrder(ran, index + 1, RestOf(script), kind);
        var left := Passed(ran, index + 1, RestOf(script)).1;
        GivenInTurn(script, left, kind);
        InThree(Waiting(b, kind), OfKind(GivenBy(FirstOf(script)), kind),
                OfKind(GivenByAll(RanOf(RestOf(script), left)), kind));
      } else {
        APassKeepsTheOrder(b, index + 1, script, kind);
      }
    }
  }

  function Steps(deliveries: seq<Delivery>): (steps: seq<Step>)
    ensures |steps| == |deliveries| && forall k :: 0 <= k < |steps| ==> steps[k] == deliveries[k].step
  {
    seq(|deliveries|, k requires 0 <= k < |deliveries| => deliveries[k].step)
  }

  lemma {:induction false} GivenByParts(a: seq<seq<Reaction>>, b: seq<seq<Reaction>>)
    ensures GivenByAll(a + b) == GivenByAll(a) + GivenByAll(b)
  {
    if a == [] {
      assert a + b == b;
    } else {
      assert (a + b)[1..] == a[1..] + b;
      GivenByParts(a[1..], b);
    }
  }

  lemma {:induction false} APassKeepsInHold(b: State, index: nat, script: seq<seq<Reaction>>)
    requires b.delivering && KeepsInHold(b)
    ensures KeepsInHold(Passed(b, index, script).0)
    decreases |script|, |b.slots| - index
  {
    if index < |b.slots| {
      if b.slots[index].listening {
        RunningKeepsTheOrder(b, index, FirstOf(script), OutputChanged);
        APassKeepsInHold(Ran(b, index, FirstOf(script)), index + 1, RestOf(script));
      } else {
        APassKeepsInHold(b, index + 1, script);
      }
    }
  }

  lemma {:induction false} ADrainEmptiesTheQueue(b: State, script: seq<seq<Reaction>>)
    requires b.delivering && KeepsInHold(b)
    ensures var (after, left, _) := Drained(b, script);
            && after.delivering && KeepsInHold(after) && after.queue == []
            && |left| <= |script| && left == script[|script| - |left|..]
    decreases |script|, |b.queue|
  {
    if b.queue != [] {
      var popped := b.(queue := b.queue[1..]);
      APassEndsWithLess(popped, 0, script);
      APassKeepsInHold(popped, 0, script);
      var (passed, left, _) := Passed(popped, 0, script);
      ADrainEmptiesTheQueue(passed, left);
      EndOfAnEnd(script, left, Drained(passed, left).1);
    }
  }

  lemma {:induction false} EndOfAnEnd(script: seq<seq<Reaction>>, left: seq<seq<Reaction>>, rest: seq<seq<Reaction>>)
    requires |rest| <= |left| <= |script| && left == script[|script| - |left|..] && rest == left[|left| - |rest|..]
    ensures rest == script[|script| - |rest|..]
  {
  }

  /** A drain delivers, of each kind, what waited and what the listeners gave, in that order; only what
      a hold keeps waits on. */
  lemma {:induction false} ADrainDeliversInOrder(b: State, script: seq<seq<Reaction>>, kind: Kind)
    requires b.delivering && KeepsInHold(b)
    ensures var (after, left, deliveries) := Drained(b, script);
            && |left| <= |script|
            && OfKind(Flat(Steps(deliveries)), kind) + OfKind(after.kept, kind)
               == Waiting(b, kind) + OfKind(GivenByAll(RanOf(script, left)), kind)
    decreases |script|, |b.queue|
  {
    if b.queue != [] {
      var popped := b.(queue := b.queue[1..]);
      APassEndsWithLess(popped, 0, script);
      APassKeepsTheOrder(popped, 0, script, kind);
      var (passed, left, receivers) := Passed(popped, 0, script);
      ADrainDeliversInOrder(passed, left, kind);
      ADrainEmptiesTheQueue(passed, left);
      var (after, rest, deliveries) := Drained(passed, left);
      AStepAndTheRestInOrder(b, popped, passed, after, Delivery(b.queue[0], receivers), deliveries, script, left, rest, kind);
    }
  }

  lemma {:induction false} AStepAndTheRestInOrder(
      b: State, popped: State, passed: State, after: State, first: Delivery, deliveries: seq<Delivery>,
      script: seq<seq<Reaction>>, left: seq<seq<Reaction>>, rest: seq<seq<Reaction>>, kind: Kind)
    requires b.queue != [] && popped == b.(queue := b.queue[1..]) && first.step == b.queue[0]
    requires |rest| <= |left| <= |script| && left == script[|script| - |left|..] && rest == left[|left| - |rest|..]
    requires Waiting(passed, kind) == Waiting(popped, kind) + OfKind(GivenByAll(RanOf(script, left)), kind)
    requires OfKind(Flat(Steps(deliveries)), kind) + OfKind(after.kept, kind)
             == Waiting(passed, kind) + OfKind(GivenByAll(RanOf(left, rest)), kind)
    ensures OfKind(Flat(Steps([first] + deliveries)), kind) + OfKind(after.kept, kind)
            == Waiting(b, kind) + OfKind(GivenByAll(RanOf(script, rest)), kind)
  {
    ADeliveredStepCameFirst(b, popped, first, deliveries, kind);
    RanInTurn(script, left, rest, kind);
    DeliveredAndWaiting(OfKind(first.step, kind), Waiting(popped, kind),
                        OfKind(GivenByAll(RanOf(script, left)), kind), OfKind(GivenByAll(RanOf(left, rest)), kind),
                        OfKind(Flat(Steps(deliveries)), kind), OfKind(after.kept, kind));
  }

  lemma {:induction false} DeliveredAndWaiting(
      s: seq<Event>, w: seq<Event>, g: seq<Event>, h: seq<Event>, d: seq<Event>, k: seq<Event>)
    requires d + k == (w + g) + h
    ensures (s + d) + k == (s + w) + (g + h)
  {
    calc {
      (s + d) + k;
      s + (d + k);
      s + ((w + g) + h);
      (s + w) + (g + h);
    }
  }

  lemma {:induction false} ADeliveredStepCameFirst(
      b: State, popped: State, first: Delivery, deliveries: seq<Delivery>, kind: Kind)
    requires b.queue != [] && popped == b.(queue := b.queue[1..]) && first.step == b.queue[0]
    ensures Waiting(b, kind) == OfKind(first.step, kind) + Waiting(popped, kind)
    ensures OfKind(Flat(Steps([first] + deliveries)), kind)
            == OfKind(first.step, kind) + OfKind(Flat(Steps(deliveries)), kind)
  {
    FlatOfTheFirst(b.queue);
    KindsOfBoth(b.queue[0], Flat(popped.queue), kind);
    InThree(OfKind(first.step, kind), OfKind(Flat(popped.queue), kind), OfKind(b.kept, kind));
    FlatOfTheFirst(Steps([first] + deliveries));
    assert Steps([first] + deliveries)[1..] == Steps(deliveries);
    KindsOfBoth(first.step, Flat(Steps(deliveries)), kind);
  }

  lemma {:induction false} RanInTurn(
      script: seq<seq<Reaction>>, left: seq<seq<Reaction>>, rest: seq<seq<Reaction>>, kind: Kind)
    requires |rest| <= |left| <= |script| && left == script[|script| - |left|..] && rest == left[|left| - |rest|..]
    ensures rest == script[|script| - |rest|..]
    ensures OfKind(GivenByAll(RanOf(script, rest)), kind)
            == OfKind(GivenByAll(RanOf(script, left)), kind) + OfKind(GivenByAll(RanOf(left, rest)), kind)
  {
    assert RanOf(script, rest) == RanOf(script, left) + RanOf(left, rest);
    GivenByParts(RanOf(script, left), RanOf(left, rest));
    KindsOfBoth(GivenByAll(RanOf(script, left)), GivenByAll(RanOf(left, rest)), kind);
  }

  // Each listener receives each step once.

  /** The slots are in the order of their ids, and a listener is there until it is removed. */
  ghost predicate Numbered(b: State) {
    && (forall j, k :: 0 <= j < k < |b.slots| ==> b.slots[j].id < b.slots[k].id)
    && (forall k :: 0 <= k < |b.slots| ==> b.slots[k].id < b.nextId)
  }

  ghost predicate Listening(b: State, taken: int) {
    && Numbered(b)
    && (forall k :: 0 <= k < |b.slots| && k != taken ==> b.slots[k].listening == !b.slots[k].removed)
  }

  /** The slots of `a` are in `b` where they were, and one removed stays so; the others are new. */
  ghost predicate Extends(a: State, b: State) {
    && |a.slots| <= |b.slots| && a.nextId <= b.nextId
    && (forall k :: |a.slots| <= k < |b.slots| ==> a.nextId <= b.slots[k].id)
    && (forall k :: 0 <= k < |a.slots| ==>
                      b.slots[k].id == a.slots[k].id && (a.slots[k].removed ==> b.slots[k].removed))
  }

  /** The slots after a reaction, when the listener at `taken` is out of its own. */
  ghost predicate KeepsSlots(b: State, after: State, taken: nat)
    requires taken < |b.slots|
  {
    after.delivering && Listening(after, taken) && Extends(b, after) && !after.slots[taken].listening
  }

  lemma {:induction false} SubscribingKeepsTheSlots(b: State, taken: nat)
    requires b.delivering && Listening(b, taken) && taken < |b.slots| && !b.slots[taken].listening
    ensures KeepsSlots(b, Subscribed(b), taken)
  {
  }

  lemma {:induction false} UnsubscribingKeepsTheSlots(b: State, id: ListenerId, taken: nat)
    requires b.delivering && Listening(b, taken) && taken < |b.slots| && !b.slots[taken].listening
    ensures KeepsSlots(b, Unsubscribed(b, id), taken)
  {
    var (at, after) := (SlotOf(b.slots, id), Unsubscribed(b, id));
    assert |after.slots| == |b.slots|;
    forall k | 0 <= k < |b.slots|
      ensures after.slots[k].id == b.slots[k].id && (after.slots[k] == b.slots[k] || after.slots[k] == Slot(id, false, true))
    {
      assert k != at ==> after.slots[k] == b.slots[k];
    }
  }

  lemma {:induction false} GivingLeavesTheSlots(b: State, events: seq<Event>)
    ensures Given(b, events) == b.(queue := Given(b, events).queue, kept := Given(b, events).kept)
  {
  }

  lemma {:induction false} AReactionKeepsTheSlots(b: State, reaction: Reaction, taken: nat)
    requires b.delivering && Listening(b, taken) && taken < |b.slots| && !b.slots[taken].listening
    ensures KeepsSlots(b, Reacted(b, reaction), taken)
  {
    match reaction
    case Gives(events) => GivingLeavesTheSlots(b, events);
    case Subscribes => SubscribingKeepsTheSlots(b, taken);
    case Unsubscribes(id) => UnsubscribingKeepsTheSlots(b, id, taken);
    case Releases =>
  }

  lemma {:induction false} ReactionsKeepTheSlots(b: State, reactions: seq<Reaction>, taken: nat)
    requires b.delivering && Listening(b, taken) && taken < |b.slots| && !b.slots[taken].listening
    ensures KeepsSlots(b, AllReacted(b, reactions), taken)
  {
    if reactions != [] {
      ReactionsKeepTheSlots(b, reactions[..|reactions| - 1], taken);
      AReactionKeepsTheSlots(AllReacted(b, reactions[..|reactions| - 1]), reactions[|reactions| - 1], taken);
    }
  }

  lemma {:induction false} PuttingBackKeepsTheSlots(b: State, index: nat, taken: State, called: State)
    requires b.delivering && Listening(b, -1) && index < |b.slots| && b.slots[index].listening
    requires taken == b.(slots := b.slots[index := b.slots[index].(listening := false)])
    requires KeepsSlots(taken, called, index)
    ensures var put := called.slots[index].(listening := !called.slots[index].removed);
            var ran := called.(slots := called.slots[index := put]);
            Listening(ran, -1) && Extends(b, ran)
  {
  }

  lemma {:induction false} RunningKeepsTheSlots(b: State, index: nat, reactions: seq<Reaction>)
    requires b.delivering && Listening(b, -1) && index < |b.slots| && b.slots[index].listening
    ensures var ran := Ran(b, index, reactions);
            ran.delivering && Listening(ran, -1) && Extends(b, ran)
  {
    var taken := b.(slots := b.slots[index := b.slots[index].(listening := false)]);
    ReactionsKeepTheSlots(taken, reactions, index);
    var called := AllReacted(taken, reactions);
    assert called.slots[index].id == taken.slots[index].id == b.slots[index].id;
    SlotsAreFoundByTheirIds(called, index);
    PuttingBackKeepsTheSlots(b, index, taken, called);
    var put := called.slots[index].(listening := !called.slots[index].removed);
    assert Ran(b, index, reactions) == called.(slots := called.slots[index := put]);
  }

  lemma {:induction false} SlotsAreFoundByTheirIds(b: State, index: nat)
    requires Numbered(b) && index < |b.slots|
    ensures SlotOf(b.slots, b.slots[index].id) == index
  {
  }

  /** Those that received a step, from the slots at `index` on. */
  ghost predicate Reaches(b: State, index: nat, after: State, receivers: seq<ListenerId>) {
    && (forall j, k :: 0 <= j < k < |receivers| ==> receivers[j] < receivers[k])
    && (forall r :: r in receivers ==> exists k :: index <= k < |after.slots| && after.slots[k].id == r)
    && (forall k :: index <= k < |after.slots| && !after.slots[k].removed ==> after.slots[k].id in receivers)
    && (forall k :: index <= k < |b.slots| && b.slots[k].removed ==> b.slots[k].id !in receivers)
  }

  /** A step reaches, once and in their order, every listener that is there throughout, and those that
      subscribe while it goes out and stay; one that was removed before receives nothing. */
  lemma {:induction false} EachListenerReceivesAStepOnce(b: State, index: nat, script: seq<seq<Reaction>>)
    requires b.delivering && Listening(b, -1)
    ensures var (after, _, receivers) := Passed(b, index, script);
            after.delivering && Listening(after, -1) && Extends(b, after) && Reaches(b, index, after, receivers)
    decreases |script|, |b.slots| - index
  {
    APassEndsWithLess(b, index, script);
    if index < |b.slots| {
      var id := b.slots[index].id;
      if b.slots[index].listening {
        RunningKeepsTheSlots(b, index, FirstOf(script));
        ReactionsKeepDelivering(b.(slots := b.slots[index := b.slots[index].(listening := false)]), FirstOf(script));
        var ran := Ran(b, index, FirstOf(script));
        EachListenerReceivesAStepOnce(ran, index + 1, RestOf(script));
        var (after, _, later) := Passed(ran, index + 1, RestOf(script));
        APassReachesOneMore(b, index, ran, after, later);
      } else {
        EachListenerReceivesAStepOnce(b, index + 1, script);
        var (after, _, later) := Passed(b, index + 1, script);
        APassSkipsARemovedSlot(b, index, after, later);
      }
    }
  }

  lemma {:induction false} APassReachesOneMore(b: State, index: nat, ran: State, after: State, later: seq<ListenerId>)
    requires index < |b.slots| && b.slots[index].listening && Listening(b, -1)
    requires Extends(b, ran) && Extends(ran, after) && Numbered(after) && Reaches(ran, index + 1, after, later)
    ensures Extends(b, after) && Reaches(b, index, after, [b.slots[index].id] + later)
  {
    var (id, receivers) := (b.slots[index].id, [b.slots[index].id] + later);
    assert after.slots[index].id == id;
    forall r | r in later ensures id < r {
      var k :| index + 1 <= k < |after.slots| && after.slots[k].id == r;
    }
    assert forall k :: 0 <= k < |later| ==> later[k] in later;
    forall k | index <= k < |b.slots| && b.slots[k].removed ensures b.slots[k].id !in receivers {
      assert ran.slots[k].removed && ran.slots[k].id == b.slots[k].id;
    }
  }

  lemma {:induction false} APassSkipsARemovedSlot(b: State, index: nat, after: State, later: seq<ListenerId>)
    requires index < |b.slots| && !b.slots[index].listening && Listening(b, -1)
    requires Extends(b, after) && Numbered(after) && Reaches(b, index + 1, after, later)
    ensures Reaches(b, index, after, later)
  {
    assert after.slots[index].id == b.slots[index].id && after.slots[index].removed;
    forall r | r in later ensures r != b.slots[index].id {
      var k :| index + 1 <= k < |after.slots| && after.slots[k].id == r;
      assert after.slots[index].id < after.slots[k].id;
    }
  }

  ghost predicate Once(receivers: seq<ListenerId>) {
    forall i, j :: 0 <= i < j < |receivers| ==> receivers[i] < receivers[j]
  }

  /** A delivery between `b` and `after` reaches, once, each listener that is there throughout. */
  ghost predicate ReachesThose(b: State, after: State, receivers: seq<ListenerId>) {
    && Once(receivers) && |b.slots| <= |after.slots|
    && forall k :: 0 <= k < |b.slots| && !after.slots[k].removed ==> b.slots[k].id in receivers
  }

  lemma {:induction false} ADrainKeepsTheSlots(b: State, script: seq<seq<Reaction>>)
    requires b.delivering && Listening(b, -1)
    ensures var after := Drained(b, script).0;
            after.delivering && Listening(after, -1) && Extends(b, after)
    decreases |script|, |b.queue|
  {
    if b.queue != [] {
      var popped := b.(queue := b.queue[1..]);
      APassEndsWithLess(popped, 0, script);
      EachListenerReceivesAStepOnce(popped, 0, script);
      var (passed, left, _) := Passed(popped, 0, script);
      ADrainKeepsTheSlots(passed, left);
      ExtendsFurther(b, passed, Drained(passed, left).0);
    }
  }

  lemma {:induction false} ExtendsFurther(a: State, b: State, c: State)
    requires Extends(a, b) && Extends(b, c)
    ensures Extends(a, c)
  {
  }

  lemma {:induction false} APassReachesThose(
      b: State, popped: State, passed: State, after: State, receivers: seq<ListenerId>)
    requires popped.slots == b.slots && Reaches(popped, 0, passed, receivers)
    requires Extends(popped, passed) && Extends(passed, after)
    ensures ReachesThose(b, after, receivers)
  {
    forall k | 0 <= k < |b.slots| && !after.slots[k].removed ensures b.slots[k].id in receivers {
      assert !passed.slots[k].removed;
    }
  }

  lemma {:induction false} ALaterStepReachesThose(b: State, passed: State, after: State, receivers: seq<ListenerId>)
    requires Extends(b, passed) && ReachesThose(passed, after, receivers)
    ensures ReachesThose(b, after, receivers)
  {
    assert forall k :: 0 <= k < |b.slots| ==> passed.slots[k].id == b.slots[k].id;
  }

  /** Every step of a drain reaches, once, each listener that is there throughout the drain. */
  lemma {:induction false} ADrainReachesEachListener(b: State, script: seq<seq<Reaction>>, d: nat)
    requires b.delivering && Listening(b, -1) && d < |Drained(b, script).2|
    ensures ReachesThose(b, Drained(b, script).0, Drained(b, script).2[d].receivers)
    decreases |script|, |b.queue|
  {
    var popped := b.(queue := b.queue[1..]);
    APassEndsWithLess(popped, 0, script);
    EachListenerReceivesAStepOnce(popped, 0, script);
    var (passed, left, receivers) := Passed(popped, 0, script);
    ADrainKeepsTheSlots(passed, left);
    if d > 0 {
      ADrainReachesEachListener(passed, left, d - 1);
    }
    AStepAndTheRest(b, popped, passed, Drained(passed, left).0, Delivery(b.queue[0], receivers), Drained(passed, left).2, d);
  }

  lemma {:induction false} AStepAndTheRest(b: State, popped: State, passed: State, after: State, first: Delivery,
                                           rest: seq<Delivery>, d: nat)
    requires d < |[first] + rest| && popped.slots == b.slots && popped.nextId == b.nextId
    requires Extends(popped, passed) && Reaches(popped, 0, passed, first.receivers) && Extends(passed, after)
    requires d > 0 ==> ReachesThose(passed, after, rest[d - 1].receivers)
    ensures ReachesThose(b, after, ([first] + rest)[d].receivers)
  {
    if d == 0 {
      APassReachesThose(b, popped, passed, after, first.receivers);
    } else {
      ALaterStepReachesThose(b, passed, after, rest[d - 1].receivers);
    }
  }

  // Every run of the bus.

  datatype Call =
    | Asks(reaction: Reaction, script: seq<seq<Reaction>>)
    | Holds

  function Called(b: State, call: Call): (r: (State, seq<Delivery>)) {
    match call
    case Holds => (b.(held := true), [])
    case Asks(reaction, script) =>
      if reaction.Gives? || reaction.Releases? then Delivered(Reacted(b, reaction), script)
      else (Reacted(b, reaction), [])
  }

  /** What a call gives, and what the listeners that ran for it gave. */
  function GivenIn(b: State, call: Call): seq<Event> {
    match call
    case Holds => []
    case Asks(reaction, script) =>
      if reaction.Gives? || reaction.Releases? then
        var drained := Reacted(b, reaction).(delivering := true);
        ADrainLeavesLess(drained, script);
        GivenBy([reaction]) + GivenByAll(RanOf(script, Drained(drained, script).1))
      else []
  }

  lemma {:induction false} ADrainLeavesLess(b: State, script: seq<seq<Reaction>>)
    requires b.delivering
    ensures |Drained(b, script).1| <= |script|
    decreases |script|, |b.queue|
  {
    if b.queue != [] {
      var popped := b.(queue := b.queue[1..]);
      APassEndsWithLess(popped, 0, script);
      var (passed, left, _) := Passed(popped, 0, script);
      ADrainLeavesLess(passed, left);
    }
  }

  function AfterCalls(calls: seq<Call>): (r: (State, seq<Delivery>)) {
    if calls == [] then (State([], [], [], false, false, 0), [])
    else
      var (before, deliveries) := AfterCalls(calls[..|calls| - 1]);
      var (after, more) := Called(before, calls[|calls| - 1]);
      (after, deliveries + more)
  }

  function AllGiven(calls: seq<Call>): seq<Event> {
    if calls == [] then []
    else
      AllGiven(calls[..|calls| - 1]) + GivenIn(AfterCalls(calls[..|calls| - 1]).0, calls[|calls| - 1])
  }

  /** A bus no delivery runs on. */
  ghost predicate AtRest(b: State) {
    !b.delivering && b.queue == [] && KeepsInHold(b)
  }

  lemma {:induction false} AGivenReaction(reaction: Reaction)
    ensures GivenBy([reaction]) == if reaction.Gives? then reaction.events else []
  {
    assert [reaction][..0] == [];
    assert GivenBy([reaction]) == GivenBy([]) + if reaction.Gives? then reaction.events else [];
  }

  lemma {:induction false} ADeliveryIsInOrder(
      b: State, script: seq<seq<Reaction>>, kind: Kind, kept: seq<Event>, given: seq<Event>)
    requires !b.delivering && KeepsInHold(b) && Waiting(b, kind) == OfKind(kept, kind) + OfKind(given, kind)
    ensures var (after, deliveries) := Delivered(b, script);
            && AtRest(after)
            && |Drained(b.(delivering := true), script).1| <= |script|
            && OfKind(Flat(Steps(deliveries)), kind) + OfKind(after.kept, kind)
               == OfKind(kept, kind)
                  + OfKind(given + GivenByAll(RanOf(script, Drained(b.(delivering := true), script).1)), kind)
  {
    var asked := b.(delivering := true);
    ADrainEmptiesTheQueue(asked, script);
    ADrainDeliversInOrder(asked, script, kind);
    var ran := GivenByAll(RanOf(script, Drained(asked, script).1));
    KindsOfBoth(given, ran, kind);
    InThree(OfKind(kept, kind), OfKind(given, kind), OfKind(ran, kind));
  }

  ghost predicate DeliversInOrder(b: State, call: Call, kind: Kind) {
    var (after, deliveries) := Called(b, call);
    && AtRest(after)
    && OfKind(Flat(Steps(deliveries)), kind) + OfKind(after.kept, kind)
       == OfKind(b.kept, kind) + OfKind(GivenIn(b, call), kind)
  }

  lemma {:induction false} AskingDeliversInOrder(
      b: State, reaction: Reaction, script: seq<seq<Reaction>>, asked: State, kind: Kind)
    requires AtRest(b) && (reaction.Gives? || reaction.Releases?)
    requires asked == Reacted(b, reaction) && !asked.delivering && KeepsInHold(asked)
    requires Waiting(asked, kind) == OfKind(b.kept, kind) + OfKind(GivenBy([reaction]), kind)
    ensures DeliversInOrder(b, Asks(reaction, script), kind)
  {
    ADeliveryIsInOrder(asked, script, kind, b.kept, GivenBy([reaction]));
  }

  lemma {:induction false} GivingStartsNoDelivery(b: State, events: seq<Event>)
    ensures Given(b, events).delivering == b.delivering
  {
  }

  lemma {:induction false} AGivingReactionWaitsLast(b: State, events: seq<Event>, kind: Kind)
    requires AtRest(b)
    ensures var asked := Reacted(b, Gives(events));
            && !asked.delivering && KeepsInHold(asked)
            && Waiting(asked, kind) == OfKind(b.kept, kind) + OfKind(events, kind)
  {
    GivingWaitsLast(b, events, kind);
    GivingStartsNoDelivery(b, events);
    assert Waiting(b, kind) == OfKind(b.kept, kind);
  }

  lemma {:induction false} GivingDeliversInOrder(b: State, events: seq<Event>, script: seq<seq<Reaction>>, kind: Kind)
    requires AtRest(b)
    ensures DeliversInOrder(b, Asks(Gives(events), script), kind)
  {
    AGivenReaction(Gives(events));
    AGivingReactionWaitsLast(b, events, kind);
    AskingDeliversInOrder(b, Gives(events), script, Reacted(b, Gives(events)), kind);
  }

  lemma {:induction false} ReleasingDeliversInOrder(b: State, script: seq<seq<Reaction>>, kind: Kind)
    requires AtRest(b)
    ensures DeliversInOrder(b, Asks(Releases, script), kind)
  {
    AGivenReaction(Releases);
    ReleasingKeepsTheOrder(b, kind);
    AskingDeliversInOrder(b, Releases, script, Released(b), kind);
  }

  lemma {:induction false} ACallDeliversInOrder(b: State, call: Call, kind: Kind)
    requires AtRest(b)
    ensures DeliversInOrder(b, call, kind)
  {
    match call
    case Holds =>
    case Asks(Gives(events), script) => GivingDeliversInOrder(b, events, script, kind);
    case Asks(Releases, script) => ReleasingDeliversInOrder(b, script, kind);
    case Asks(_, _) =>
  }

  /** Over every run the events of each kind reach the listeners in the order they were given, none
      lost and none twice; what has not reached them yet is what a hold keeps. */
  lemma {:induction false} EveryRunDeliversEachKindInOrder(calls: seq<Call>, kind: Kind)
    ensures var (b, deliveries) := AfterCalls(calls);
            && AtRest(b)
            && OfKind(Flat(Steps(deliveries)), kind) + OfKind(b.kept, kind) == OfKind(AllGiven(calls), kind)
            && (!b.held ==> OfKind(Flat(Steps(deliveries)), kind) == OfKind(AllGiven(calls), kind))
  {
    if calls != [] {
      var (earlier, last) := (calls[..|calls| - 1], calls[|calls| - 1]);
      EveryRunDeliversEachKindInOrder(earlier, kind);
      var (b, deliveries) := AfterCalls(earlier);
      ACallDeliversInOrder(b, last, kind);
      var (after, more) := Called(b, last);
      StepsOfBoth(deliveries, more);
      KindsOfBoth(Flat(Steps(deliveries)), Flat(Steps(more)), kind);
      KindsOfBoth(AllGiven(earlier), GivenIn(b, last), kind);
      DeliveredOverAll(OfKind(Flat(Steps(deliveries)), kind), OfKind(Flat(Steps(more)), kind),
                       OfKind(after.kept, kind), OfKind(b.kept, kind), OfKind(GivenIn(b, last), kind));
      assert !after.held ==> OfKind(after.kept, kind) == [];
    }
  }

  lemma {:induction false} DeliveredOverAll(
      d: seq<Event>, m: seq<Event>, k: seq<Event>, was: seq<Event>, given: seq<Event>)
    requires m + k == was + given
    ensures (d + m) + k == (d + was) + given
  {
    assert d + (m + k) == d + (was + given);
    InThree(d, m, k);
    InThree(d, was, given);
  }

  lemma {:induction false} FlatOfBoth(a: seq<Step>, b: seq<Step>)
    ensures Flat(a + b) == Flat(a) + Flat(b)
  {
    if b == [] {
      assert a + b == a;
    } else {
      var before := b[..|b| - 1];
      assert (a + b)[..|a + b| - 1] == a + before;
      FlatOfBoth(a, before);
    }
  }

  lemma {:induction false} StepsOfBoth(a: seq<Delivery>, b: seq<Delivery>)
    ensures Flat(Steps(a + b)) == Flat(Steps(a)) + Flat(Steps(b))
  {
    assert Steps(a + b) == Steps(a) + Steps(b);
    FlatOfBoth(Steps(a), Steps(b));
  }

  // Each listener over a run.

  ghost predicate IsThere(b: State, id: ListenerId) {
    exists k :: 0 <= k < |b.slots| && b.slots[k].id == id && !b.slots[k].removed
  }

  /** A listener that is gone does not come back. */
  ghost predicate BringsNoneBack(a: State, b: State) {
    a.nextId <= b.nextId && forall id: ListenerId :: id < a.nextId && IsThere(b, id) ==> IsThere(a, id)
  }

  /** A delivery between `b` and `after` reaches each listener once that is there before and afterwards. */
  ghost predicate ReachesListeners(b: State, after: State, receivers: seq<ListenerId>) {
    Once(receivers) && forall id: ListenerId :: IsThere(b, id) && IsThere(after, id) ==> id in receivers
  }

  lemma {:induction false} AnExtendedBusBringsNoneBack(a: State, b: State)
    requires Extends(a, b)
    ensures BringsNoneBack(a, b)
  {
    forall id: ListenerId | id < a.nextId && IsThere(b, id) ensures IsThere(a, id) {
      var k :| 0 <= k < |b.slots| && b.slots[k].id == id && !b.slots[k].removed;
      assert k < |a.slots| && a.slots[k].id == id && !a.slots[k].removed;
    }
  }

  lemma {:induction false} RetainingKeepsTheOrder(slots: seq<Slot>, nextId: ListenerId)
    requires forall j, k :: 0 <= j < k < |slots| ==> slots[j].id < slots[k].id
    requires forall k :: 0 <= k < |slots| ==> slots[k].id < nextId
    requires forall k :: 0 <= k < |slots| ==> slots[k].listening == !slots[k].removed
    ensures forall j, k :: 0 <= j < k < |Retained(slots)| ==> Retained(slots)[j].id < Retained(slots)[k].id
    ensures forall k :: 0 <= k < |Retained(slots)| ==>
                          Retained(slots)[k].id < nextId && Retained(slots)[k].listening && !Retained(slots)[k].removed
  {
    if slots != [] {
      var (before, last) := (slots[..|slots| - 1], slots[|slots| - 1]);
      RetainingKeepsTheOrder(before, nextId);
      forall k | 0 <= k < |Retained(before)| ensures Retained(before)[k].id < last.id {
        assert Retained(before)[k] in before;
      }
    }
  }

  lemma {:induction false} RetainingKeepsThoseThere(b: State, after: State)
    requires after.slots == Retained(b.slots)
    ensures forall id: ListenerId :: IsThere(after, id) <==> IsThere(b, id)
  {
    forall id: ListenerId ensures IsThere(after, id) <==> IsThere(b, id) {
      if IsThere(after, id) {
        var k :| 0 <= k < |after.slots| && after.slots[k].id == id && !after.slots[k].removed;
        assert after.slots[k] in b.slots;
      }
      if IsThere(b, id) {
        var k :| 0 <= k < |b.slots| && b.slots[k].id == id && !b.slots[k].removed;
        assert b.slots[k] in after.slots;
      }
    }
  }

  lemma {:induction false} ThoseThereAreReached(b: State, after: State, receivers: seq<ListenerId>)
    requires Listening(b, -1) && Numbered(after) && Extends(b, after) && ReachesThose(b, after, receivers)
    ensures ReachesListeners(b, after, receivers)
  {
    forall id: ListenerId | IsThere(b, id) && IsThere(after, id) ensures id in receivers {
      var k :| 0 <= k < |b.slots| && b.slots[k].id == id && !b.slots[k].removed;
      var j :| 0 <= j < |after.slots| && after.slots[j].id == id && !after.slots[j].removed;
      assert after.slots[k].id == id && j == k;
    }
  }

  /** What a call from outside a delivery leaves of the listeners. */
  ghost predicate KeepsListeners(b: State, after: State, deliveries: seq<Delivery>) {
    && !after.delivering && Listening(after, -1) && BringsNoneBack(b, after)
    && forall d :: 0 <= d < |deliveries| ==> ReachesListeners(b, after, deliveries[d].receivers)
  }

  lemma {:induction false} ADeliveryKeepsListeners(b: State, script: seq<seq<Reaction>>)
    requires Listening(b, -1)
    ensures KeepsListeners(b, Delivered(b, script).0, Delivered(b, script).1)
  {
    var asked := b.(delivering := true);
    ADrainKeepsTheSlots(asked, script);
    var (drained, _, deliveries) := Drained(asked, script);
    var after := Delivered(b, script).0;
    RetainingKeepsTheOrder(drained.slots, drained.nextId);
    RetainingKeepsThoseThere(drained, after);
    AnExtendedBusBringsNoneBack(asked, drained);
    assert forall id: ListenerId :: IsThere(b, id) <==> IsThere(asked, id);
    forall d | 0 <= d < |deliveries| ensures ReachesListeners(b, after, deliveries[d].receivers) {
      ADrainReachesEachListener(asked, script, d);
      ThoseThereAreReached(asked, drained, deliveries[d].receivers);
    }
  }

  lemma {:induction false} SubscribingKeepsListeners(b: State)
    requires Listening(b, -1) && !b.delivering
    ensures KeepsListeners(b, Subscribed(b), [])
  {
    AnExtendedBusBringsNoneBack(b, Subscribed(b));
  }

  lemma {:induction false} MarkingKeepsTheSlots(b: State, id: ListenerId, at: nat)
    requires Listening(b, -1) && at < |b.slots| && b.slots[at].id == id
    ensures var marked := b.(slots := b.slots[at := Slot(id, false, true)]);
            Listening(marked, -1) && Extends(b, marked)
  {
  }

  lemma {:induction false} UnsubscribingKeepsListeners(b: State, id: ListenerId)
    requires Listening(b, -1) && !b.delivering
    ensures KeepsListeners(b, Unsubscribed(b, id), [])
  {
    var at := SlotOf(b.slots, id);
    var marked := if at < |b.slots| then b.(slots := b.slots[at := Slot(id, false, true)]) else b;
    if at < |b.slots| {
      MarkingKeepsTheSlots(b, id, at);
    }
    RetainingKeepsTheOrder(marked.slots, marked.nextId);
    RetainingKeepsThoseThere(marked, Unsubscribed(b, id));
    AnExtendedBusBringsNoneBack(b, marked);
  }

  lemma {:induction false} AskingKeepsListeners(b: State, asked: State, script: seq<seq<Reaction>>)
    requires Listening(b, -1) && asked.slots == b.slots && asked.nextId == b.nextId
    ensures KeepsListeners(b, Delivered(asked, script).0, Delivered(asked, script).1)
  {
    ADeliveryKeepsListeners(asked, script);
    assert forall id: ListenerId :: IsThere(b, id) <==> IsThere(asked, id);
  }

  lemma {:induction false} ACallKeepsListeners(b: State, call: Call)
    requires Listening(b, -1) && !b.delivering
    ensures KeepsListeners(b, Called(b, call).0, Called(b, call).1)
  {
    match call
    case Holds =>
    case Asks(Gives(events), script) =>
      GivingLeavesTheSlots(b, events);
      AskingKeepsListeners(b, Given(b, events), script);
    case Asks(Releases, script) => AskingKeepsListeners(b, Released(b), script);
    case Asks(Subscribes, _) => SubscribingKeepsListeners(b);
    case Asks(Unsubscribes(id), _) => UnsubscribingKeepsListeners(b, id);
  }

  /** The deliveries since the first `i` calls of a run, with those the bus made before. */
  ghost predicate ReachesSince(calls: seq<Call>, i: nat, id: ListenerId)
    requires i <= |calls|
  {
    var (at, before) := AfterCalls(calls[..i]);
    var (b, deliveries) := AfterCalls(calls);
    && BringsNoneBack(at, b) && |before| <= |deliveries|
    && (IsThere(at, id) && IsThere(b, id) ==>
          forall d :: |before| <= d < |deliveries| ==> id in deliveries[d].receivers)
  }

  lemma {:induction false} EveryRunKeepsItsListeners(calls: seq<Call>)
    ensures var (b, deliveries) := AfterCalls(calls);
            && !b.delivering && Listening(b, -1)
            && forall d :: 0 <= d < |deliveries| ==> Once(deliveries[d].receivers)
  {
    if calls != [] {
      var (earlier, last) := (calls[..|calls| - 1], calls[|calls| - 1]);
      EveryRunKeepsItsListeners(earlier);
      ACallKeepsListeners(AfterCalls(earlier).0, last);
    }
  }

  lemma {:induction false} ALaterCallReaches(at: State, before: nat, b: State, deliveries: seq<Delivery>, after: State,
                                             more: seq<Delivery>, id: ListenerId)
    requires Listening(at, -1) && BringsNoneBack(at, b) && KeepsListeners(b, after, more) && before <= |deliveries|
    requires IsThere(at, id) && IsThere(b, id) ==>
               forall d :: before <= d < |deliveries| ==> id in deliveries[d].receivers
    ensures BringsNoneBack(at, after)
    ensures IsThere(at, id) && IsThere(after, id) ==>
              forall d :: before <= d < |deliveries + more| ==> id in (deliveries + more)[d].receivers
  {
    if IsThere(at, id) && IsThere(after, id) {
      assert id < at.nextId && IsThere(b, id);
      forall d | before <= d < |deliveries + more| ensures id in (deliveries + more)[d].receivers {
        if d >= |deliveries| {
          assert (deliveries + more)[d] == more[d - |deliveries|];
        }
      }
    }
  }

  lemma {:induction false} ARunReachesWhoStays(calls: seq<Call>, i: nat, id: ListenerId)
    requires i <= |calls|
    ensures ReachesSince(calls, i, id)
  {
    if i == |calls| {
      assert calls[..i] == calls;
    } else {
      var (earlier, last) := (calls[..|calls| - 1], calls[|calls| - 1]);
      assert earlier[..i] == calls[..i];
      ARunReachesWhoStays(earlier, i, id);
      EveryRunKeepsItsListeners(calls[..i]);
      EveryRunKeepsItsListeners(earlier);
      var (b, deliveries) := AfterCalls(earlier);
      ACallKeepsListeners(b, last);
      var (after, more) := Called(b, last);
      ALaterCallReaches(AfterCalls(calls[..i]).0, |AfterCalls(calls[..i]).1|, b, deliveries, after, more, id);
    }
  }

  /** Over every run a delivery reaches no listener twice, and each step that is delivered since some
      call reaches every listener that is there at that call and at the end. */
  lemma {:induction false} EveryRunReachesEachListener(calls: seq<Call>, i: nat, id: ListenerId)
    requires i <= |calls|
    ensures ReachesSince(calls, i, id)
    ensures forall d :: 0 <= d < |AfterCalls(calls).1| ==> Once(AfterCalls(calls).1[d].receivers)
  {
    ARunReachesWhoStays(calls, i, id);
    EveryRunKeepsItsListeners(calls);
  }
}
