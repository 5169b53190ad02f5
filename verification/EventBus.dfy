/** The bus itself, whose cells change in place (crates/agent-session/src/bus.rs). */
module EventBuses {
  import opened Wrappers
  import opened Bus

  class EventBus {
    var slots: seq<Slot>
    var queue: seq<Step>
    var kept: seq<Event>
    var delivering: bool
    var held: bool
    var nextId: ListenerId

    function Now(): State
      reads this
    {
      State(slots, queue, kept, delivering, held, nextId)
    }

    constructor ()
      ensures Now() == State([], [], [], false, false, 0)
    {
      slots, queue, kept, delivering, held, nextId := [], [], [], false, false, 0;
    }

    method Subscribe() returns (id: ListenerId)
      modifies this
      ensures Now() == Subscribed(old(Now())) && id == old(nextId)
    {
      id := nextId;
      nextId := id + 1;
      slots := slots + [Slot(id, true, false)];
    }

    method Unsubscribe(id: ListenerId)
      modifies this
      ensures Now() == Unsubscribed(old(Now()), id)
    {
      var at := SlotOf(slots, id);
      if at < |slots| {
        slots := slots[at := Slot(id, false, true)];
      }
      if !delivering {
        slots := Retained(slots);
      }
    }

    method Enqueue(events: seq<Event>)
      modifies this
      ensures Now() == Given(old(Now()), events)
    {
      if events == [] {
        return;
      }
      if !held {
        queue := queue + [events];
        return;
      }
      var output: seq<Event> := [];
      var step: seq<Event> := [];
      for k := 0 to |events|
        invariant Now() == old(Now())
        invariant output == Outputs(events[..k]) && step == Others(events[..k])
      {
        assert events[..k + 1][..k] == events[..k];
        if events[k].kind.OutputChanged? {
          output := output + [events[k]];
        } else {
          step := step + [events[k]];
        }
      }
      assert events[..|events|] == events;
      if output != [] {
        queue := queue + [output];
      }
      if step != [] {
        if Keeps(kept, step) {
          kept := kept + step;
        } else {
          queue := queue + [step];
        }
      }
    }

    /** Delivers the step after those already waiting. */
    method Deliver(events: seq<Event>, script: seq<seq<Reaction>>) returns (deliveries: seq<Delivery>)
      requires !delivering
      modifies this
      ensures (Now(), deliveries) == Called(old(Now()), Asks(Gives(events), script))
    {
      Enqueue(events);
      GivingLeavesTheSlots(old(Now()), events);
      deliveries := Drain(script);
    }

    method Hold()
      requires !delivering
      modifies this
      ensures (Now(), []) == Called(old(Now()), Holds)
    {
      held := true;
    }

    method Unhold()
      modifies this
      ensures Now() == Released(old(Now()))
    {
      if held {
        held := false;
        if kept != [] {
          queue := queue + [kept];
        }
        kept := [];
      }
    }

    /** Ends the hold: what it kept goes out as a single step, ahead of any given later. */
    method Release(script: seq<seq<Reaction>>) returns (deliveries: seq<Delivery>)
      requires !delivering
      modifies this
      ensures (Now(), deliveries) == Called(old(Now()), Asks(Releases, script))
    {
      Unhold();
      deliveries := Drain(script);
    }

    /** What a listener does while it runs; a step it gives only waits. */
    method React(reactions: seq<Reaction>)
      requires delivering
      modifies this
      ensures Now() == AllReacted(old(Now()), reactions) && delivering
    {
      for k := 0 to |reactions|
        invariant delivering && Now() == AllReacted(old(Now()), reactions[..k])
      {
        assert reactions[..k + 1][..k] == reactions[..k];
        ReactionsKeepDelivering(old(Now()), reactions[..k + 1]);
        match reactions[k] {
          case Gives(events) => Enqueue(events);
          case Subscribes => var _ := Subscribe();
          case Unsubscribes(id) => Unsubscribe(id);
          case Releases => Unhold();
        }
      }
      assert reactions[..|reactions|] == reactions;
    }

    /** Runs the listener at `index`, taken out of its slot so that it may call back. */
    method Run(index: nat, reactions: seq<Reaction>)
      requires delivering && index < |slots|
      modifies this
      ensures Now() == Ran(old(Now()), index, reactions) && delivering && |old(slots)| <= |slots|
    {
      var id := slots[index].id;
      slots := slots[index := slots[index].(listening := false)];
      ReactionsKeepDelivering(Now(), reactions);
      React(reactions);
      var at := SlotOf(slots, id);
      if at < |slots| && !slots[at].removed {
        slots := slots[at := slots[at].(listening := true)];
      }
    }

    /** Gives the step to each listener in turn, with those that subscribe meanwhile. */
    method Pass(script: seq<seq<Reaction>>) returns (left: seq<seq<Reaction>>, receivers: seq<ListenerId>)
      requires delivering
      modifies this
      ensures (Now(), left, receivers) == Passed(old(Now()), 0, script) && delivering
    {
      var index := 0;
      left, receivers := script, [];
      while index < |slots|
        invariant delivering
        invariant var (rest, all) := (Passed(Now(), index, left), Passed(old(Now()), 0, script));
                  rest.0 == all.0 && rest.1 == all.1 && receivers + rest.2 == all.2
        decreases |left|, |slots| - index
      {
        if slots[index].listening {
          receivers := receivers + [slots[index].id];
          Run(index, FirstOf(left));
          left := RestOf(left);
        }
        index := index + 1;
      }
      assert receivers + [] == receivers;
    }

    method Drain(script: seq<seq<Reaction>>) returns (deliveries: seq<Delivery>)
      requires !delivering
      modifies this
      ensures (Now(), deliveries) == Delivered(old(Now()), script)
    {
      delivering := true;
      ghost var begun := Now();
      deliveries := [];
      var left := script;
      while queue != []
        invariant delivering
        invariant var (rest, all) := (Drained(Now(), left), Drained(begun, script));
                  rest.0 == all.0 && rest.1 == all.1 && deliveries + rest.2 == all.2
        decreases |left|, |queue|
      {
        var step := queue[0];
        queue := queue[1..];
        APassEndsWithLess(Now(), 0, left);
        var rest, receivers := Pass(left);
        left := rest;
        deliveries := deliveries + [Delivery(step, receivers)];
      }
      assert deliveries + [] == deliveries;
      slots := Retained(slots);
      delivering := false;
    }
  }
}
