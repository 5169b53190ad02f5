/**
 Who owns each provider runtime of a session (crates/agent-session/src/core.rs, ahead.rs): the slot, the
 one it is out with, a recorded switch, a switch that waits for an edit, the retired, or whoever was
 handed it for closing.
 */
module Runtimes {
  import opened Wrappers

  type Runtime = nat

  /** A switch of the model, which brings a runtime of its own or lands on the one there is. */
  datatype ModelSwitch = ModelSwitch(runtime: Option<Runtime>)

  /** `slot`: the runtime between requests. `run`, `ahead`: the one a request, or the readying of the next,
      has out, the latter with whether it is the recorded switch's. `handedOut`: those given for closing. */
  datatype Ownership = Ownership(slot: Option<Runtime>, run: Option<Runtime>, ahead: Option<(Runtime, bool)>,
                                 switch: Option<ModelSwitch>, waiting: Option<ModelSwitch>, retired: seq<Runtime>,
                                 handedOut: seq<Runtime>, preparing: bool, disposing: bool)

  function AsSeq(runtime: Option<Runtime>): seq<Runtime> {
    match runtime case None => [] case Some(r) => [r]
  }

  function OfSwitch(switch: Option<ModelSwitch>): seq<Runtime> {
    match switch case None => [] case Some(s) => AsSeq(s.runtime)
  }

  function OfAhead(ahead: Option<(Runtime, bool)>): seq<Runtime> {
    match ahead case None => [] case Some(a) => [a.0]
  }

  /** Puts a switch in a slot in place of the one there, whose runtime it takes over or retires. */
  function Replaced(slot: Option<ModelSwitch>, switch: ModelSwitch): (ModelSwitch, seq<Runtime>) {
    match slot
    case None => (switch, [])
    case Some(before) =>
      if switch.runtime.None? then (ModelSwitch(before.runtime), []) else (switch, AsSeq(before.runtime))
  }

  function HandedOut(o: Ownership, runtimes: seq<Runtime>): Ownership {
    o.(handedOut := o.handedOut + runtimes)
  }

  // Each operation, with what it hands out.

  function SwitchRecorded(o: Ownership, switch: ModelSwitch): Ownership {
    if o.disposing then HandedOut(o, AsSeq(switch.runtime))
    else if o.preparing then
      var (kept, retired) := Replaced(o.waiting, switch);
      o.(waiting := Some(kept), retired := o.retired + retired)
    else
      var (kept, retired) := Replaced(o.switch, switch);
      o.(switch := Some(kept), retired := o.retired + retired)
  }

  /** The slot takes a runtime, and the one it replaced is handed out. */
  function Placed(o: Ownership, runtime: Runtime): Ownership {
    HandedOut(o.(slot := Some(runtime)), AsSeq(o.slot))
  }

  function SwitchInstalled(o: Ownership): Ownership {
    match o.switch
    case None => o
    case Some(switch) =>
      var landed := HandedOut(o.(switch := None, retired := []), o.retired);
      if switch.runtime.Some? then Placed(landed, switch.runtime.value) else landed
  }

  function EditAdopted(o: Ownership, runtime: Runtime): Ownership {
    var placed := Placed(o, runtime);
    HandedOut(placed.(switch := o.waiting, waiting := None, retired := [], preparing := false),
              OfSwitch(o.switch) + o.retired)
  }

  function EditRejected(o: Ownership): Ownership {
    var rejected := o.(preparing := false);
    match o.waiting
    case None => rejected
    case Some(waiting) =>
      var (kept, retired) := Replaced(o.switch, waiting);
      rejected.(waiting := None, switch := Some(kept), retired := o.retired + retired)
  }

  function SlotRenewed(o: Ownership, ofSlot: Runtime): Ownership {
    if o.slot.Some? then Placed(o, ofSlot) else o
  }

  function SwitchRenewed(o: Ownership, ofSwitch: Runtime): Ownership {
    if o.switch.Some? && o.switch.value.runtime.Some?
    then HandedOut(o.(switch := Some(ModelSwitch(Some(ofSwitch)))), AsSeq(o.switch.value.runtime))
    else o
  }

  /** Fresh runtimes take the place of those there, which are handed out. */
  function PathSwitched(o: Ownership, ofSlot: Runtime, ofSwitch: Runtime): Ownership {
    SwitchRenewed(SlotRenewed(o, ofSlot), ofSwitch)
  }

  function RuntimeTaken(o: Ownership): Ownership {
    if o.slot.Some? then o.(slot := None, run := o.slot) else o
  }

  /** A run's runtime goes back into the slot, whatever is there. */
  function RuntimeReturned(o: Ownership): Ownership {
    if o.run.Some? then o.(slot := o.run, run := None) else o
  }

  function LandingTaken(o: Ownership): Ownership {
    if o.switch.Some? && o.switch.value.runtime.Some?
    then o.(switch := Some(ModelSwitch(None)), ahead := Some((o.switch.value.runtime.value, true)))
    else if o.slot.Some? then o.(slot := None, ahead := Some((o.slot.value, false)))
    else o
  }

  /** It lands with its switch when that switch, or one that took over from it, is still recorded; else it
      is handed out, as every runtime is once dispose began. */
  function LandingReturned(o: Ownership): Ownership {
    match o.ahead
    case None => o
    case Some((runtime, fromSwitch)) =>
      var back := o.(ahead := None);
      if o.disposing then HandedOut(back, [runtime])
      else if !fromSwitch then Placed(back, runtime)
      else if o.switch.Some? && o.switch.value.runtime.None? then back.(switch := Some(ModelSwitch(Some(runtime))))
      else HandedOut(back, [runtime])
  }

  /** Every runtime the session holds, for closing. */
  function AllTaken(o: Ownership): Ownership {
    HandedOut(o.(slot := None, switch := None, waiting := None, retired := []),
              AsSeq(o.slot) + OfSwitch(o.switch) + OfSwitch(o.waiting) + o.retired)
  }

  // Every run.

  datatype Event =
    | RecordsSwitch(switch: ModelSwitch)
    | InstallsSwitch
    | PreparesEdit
    | AdoptsEdit(runtime: Runtime)
    | RejectsEdit
    | SwitchesPath(ofSlot: Runtime, ofSwitch: Runtime)
    | TakesRuntime
    | ReturnsRuntime
    | TakesLanding
    | ReturnsLanding
    | Disposes
    | TakesAll

  function ForSlot(o: Ownership, ofSlot: Runtime): seq<Runtime> {
    if o.slot.Some? then [ofSlot] else []
  }

  function ForSwitch(o: Ownership, ofSwitch: Runtime): seq<Runtime> {
    if o.switch.Some? && o.switch.value.runtime.Some? then [ofSwitch] else []
  }

  /** The runtimes an event brings. */
  function Brought(o: Ownership, e: Event): seq<Runtime> {
    match e
    case RecordsSwitch(switch) => AsSeq(switch.runtime)
    case AdoptsEdit(runtime) => [runtime]
    case SwitchesPath(ofSlot, ofSwitch) =>
      ForSlot(o, ofSlot) + ForSwitch(o, ofSwitch)
    case _ => []
  }

  function Next(o: Ownership, e: Event): Ownership {
    match e
    case RecordsSwitch(switch) => SwitchRecorded(o, switch)
    case InstallsSwitch => SwitchInstalled(o)
    case PreparesEdit => o.(preparing := true)
    case AdoptsEdit(runtime) => EditAdopted(o, runtime)
    case RejectsEdit => EditRejected(o)
    case SwitchesPath(ofSlot, ofSwitch) => PathSwitched(o, ofSlot, ofSwitch)
    case TakesRuntime => RuntimeTaken(o)
    case ReturnsRuntime => RuntimeReturned(o)
    case TakesLanding => LandingTaken(o)
    case ReturnsLanding => LandingReturned(o)
    case Disposes => o.(disposing := true)
    case TakesAll => AllTaken(o)
  }

  function Times(runtimes: seq<Runtime>, r: Runtime): nat {
    if runtimes == [] then 0
    else Times(runtimes[..|runtimes| - 1], r) + if runtimes[|runtimes| - 1] == r then 1 else 0
  }

  /** In how many places of the session a runtime is. */
  function Owned(o: Ownership, r: Runtime): nat {
    Times(AsSeq(o.slot), r) + Times(AsSeq(o.run), r) + Times(OfAhead(o.ahead), r) + Times(OfSwitch(o.switch), r)
    + Times(OfSwitch(o.waiting), r) + Times(o.retired, r) + Times(o.handedOut, r)
  }

  lemma {:induction false} TimesInBoth(a: seq<Runtime>, b: seq<Runtime>, r: Runtime)
    ensures Times(a + b, r) == Times(a, r) + Times(b, r)
  {
    if b == [] {
      assert a + b == a;
    } else {
      assert (a + b)[..|a + b| - 1] == a + b[..|b| - 1];
      TimesInBoth(a, b[..|b| - 1], r);
    }
  }

  /** When an event may come: one worker takes, returns and replaces runtimes, and readies the next
      request only while no action runs. */
  predicate Enabled(o: Ownership, e: Event) {
    match e
    case TakesRuntime => o.run.None? && o.ahead.None?
    case TakesLanding => o.run.None? && o.ahead.None?
    case InstallsSwitch => o.run.None? && o.ahead.None?
    case AdoptsEdit(_) => o.run.None? && o.ahead.None? && o.preparing
    case SwitchesPath(_, _) => o.run.None? && o.ahead.None?
    case _ => true
  }

  /** A runtime that is out left its place empty. */
  ghost predicate OutLeavesItsPlace(o: Ownership) {
    && (o.run.Some? ==> o.slot.None? && o.ahead.None?)
    && (o.ahead.Some? && !o.ahead.value.1 ==> o.slot.None?)
  }

  predicate SamePlaces(o: Ownership, brought: seq<Runtime>, after: Ownership, r: Runtime) {
    Owned(after, r) == Owned(o, r) + Times(brought, r)
  }

  lemma {:induction false} HandingOutKeepsThem(o: Ownership, runtimes: seq<Runtime>, r: Runtime)
    ensures Owned(HandedOut(o, runtimes), r) == Owned(o, r) + Times(runtimes, r)
  {
    TimesInBoth(o.handedOut, runtimes, r);
  }

  lemma {:induction false} PlacingKeepsEach(o: Ownership, runtime: Runtime, r: Runtime)
    ensures SamePlaces(o, [runtime], Placed(o, runtime), r)
  {
    HandingOutKeepsThem(o.(slot := Some(runtime)), AsSeq(o.slot), r);
  }

  lemma {:induction false} ReplacingKeepsEach(
      slot: Option<ModelSwitch>, switch: ModelSwitch, retired: seq<Runtime>, r: Runtime)
    ensures var (kept, more) := Replaced(slot, switch);
            Times(AsSeq(kept.runtime), r) + Times(retired + more, r)
            == Times(OfSwitch(slot), r) + Times(AsSeq(switch.runtime), r) + Times(retired, r)
  {
    TimesInBoth(retired, Replaced(slot, switch).1, r);
  }

  lemma {:induction false} RecordingKeepsEach(o: Ownership, switch: ModelSwitch, r: Runtime)
    ensures SamePlaces(o, AsSeq(switch.runtime), SwitchRecorded(o, switch), r)
  {
    HandingOutKeepsThem(o, AsSeq(switch.runtime), r);
    ReplacingKeepsEach(if o.preparing then o.waiting else o.switch, switch, o.retired, r);
  }

  lemma {:induction false} InstallingKeepsEach(o: Ownership, r: Runtime)
    ensures SamePlaces(o, [], SwitchInstalled(o), r)
  {
    if o.switch.Some? {
      var emptied := o.(switch := None, retired := []);
      HandingOutKeepsThem(emptied, o.retired, r);
      var landed := HandedOut(emptied, o.retired);
      if o.switch.value.runtime.Some? { PlacingKeepsEach(landed, o.switch.value.runtime.value, r); }
    }
  }

  lemma {:induction false} AdoptingKeepsEach(o: Ownership, runtime: Runtime, r: Runtime)
    ensures SamePlaces(o, [runtime], EditAdopted(o, runtime), r)
  {
    PlacingKeepsEach(o, runtime, r);
    var emptied := Placed(o, runtime).(switch := o.waiting, waiting := None, retired := [], preparing := false);
    HandingOutKeepsThem(emptied, OfSwitch(o.switch) + o.retired, r);
    TimesInBoth(OfSwitch(o.switch), o.retired, r);
  }

  lemma {:induction false} RejectingKeepsEach(o: Ownership, r: Runtime)
    ensures SamePlaces(o, [], EditRejected(o), r)
  {
    if o.waiting.Some? { ReplacingKeepsEach(o.switch, o.waiting.value, o.retired, r); }
  }

  lemma {:induction false} RenewingTheSlotKeepsEach(o: Ownership, ofSlot: Runtime, r: Runtime)
    ensures SamePlaces(o, ForSlot(o, ofSlot), SlotRenewed(o, ofSlot), r) && SlotRenewed(o, ofSlot).switch == o.switch
  {
    PlacingKeepsEach(o, ofSlot, r);
  }

  lemma {:induction false} RenewingTheSwitchKeepsEach(o: Ownership, ofSwitch: Runtime, r: Runtime)
    ensures SamePlaces(o, ForSwitch(o, ofSwitch), SwitchRenewed(o, ofSwitch), r)
  {
    if o.switch.Some? && o.switch.value.runtime.Some? {
      HandingOutKeepsThem(o.(switch := Some(ModelSwitch(Some(ofSwitch)))), AsSeq(o.switch.value.runtime), r);
    }
  }

  lemma {:induction false} TwoStepsKeepEach(o: Ownership, first: seq<Runtime>, between: Ownership, second: seq<Runtime>,
                         after: Ownership, r: Runtime)
    requires SamePlaces(o, first, between, r) && SamePlaces(between, second, after, r)
    ensures SamePlaces(o, first + second, after, r)
  {
    TimesInBoth(first, second, r);
  }

  lemma {:induction false} SwitchingThePathKeepsEach(o: Ownership, ofSlot: Runtime, ofSwitch: Runtime, r: Runtime)
    ensures SamePlaces(o, ForSlot(o, ofSlot) + ForSwitch(o, ofSwitch), PathSwitched(o, ofSlot, ofSwitch), r)
  {
    var renewed := SlotRenewed(o, ofSlot);
    RenewingTheSlotKeepsEach(o, ofSlot, r);
    RenewingTheSwitchKeepsEach(renewed, ofSwitch, r);
    SameSwitchSameRuntime(o, renewed, ofSwitch);
    TwoStepsKeepEach(o, ForSlot(o, ofSlot), renewed, ForSwitch(renewed, ofSwitch), SwitchRenewed(renewed, ofSwitch), r);
  }

  lemma {:induction false} SameSwitchSameRuntime(a: Ownership, b: Ownership, ofSwitch: Runtime)
    requires a.switch == b.switch
    ensures ForSwitch(a, ofSwitch) == ForSwitch(b, ofSwitch)
  {
  }

  lemma {:induction false} ReturningKeepsEach(o: Ownership, r: Runtime)
    requires OutLeavesItsPlace(o)
    ensures SamePlaces(o, [], LandingReturned(o), r)
  {
    if o.ahead.Some? {
      var (runtime, fromSwitch) := o.ahead.value;
      HandingOutKeepsThem(o.(ahead := None), [runtime], r);
      PlacingKeepsEach(o.(ahead := None), runtime, r);
    }
  }

  lemma {:induction false} TakingAllKeepsEach(o: Ownership, r: Runtime)
    ensures SamePlaces(o, [], AllTaken(o), r)
  {
    var emptied := o.(slot := None, switch := None, waiting := None, retired := []);
    HandingOutKeepsThem(emptied, AsSeq(o.slot) + OfSwitch(o.switch) + OfSwitch(o.waiting) + o.retired, r);
    TimesInBoth(AsSeq(o.slot) + OfSwitch(o.switch) + OfSwitch(o.waiting), o.retired, r);
    TimesInBoth(AsSeq(o.slot) + OfSwitch(o.switch), OfSwitch(o.waiting), r);
    TimesInBoth(AsSeq(o.slot), OfSwitch(o.switch), r);
  }

  lemma {:induction false} TakingKeepsEach(o: Ownership, r: Runtime)
    requires OutLeavesItsPlace(o)
    ensures o.run.None? && o.ahead.None? ==>
              SamePlaces(o, [], RuntimeTaken(o), r) && SamePlaces(o, [], LandingTaken(o), r)
    ensures SamePlaces(o, [], RuntimeReturned(o), r)
  {
  }

  /** Every step keeps each runtime in as many places as it was in, with those it brings. */
  lemma {:induction false} EveryStepKeepsEachRuntime(o: Ownership, e: Event, r: Runtime)
    requires OutLeavesItsPlace(o) && Enabled(o, e)
    ensures SamePlaces(o, Brought(o, e), Next(o, e), r)
  {
    match e
    case RecordsSwitch(switch) => RecordingKeepsEach(o, switch, r);
    case InstallsSwitch => InstallingKeepsEach(o, r);
    case PreparesEdit =>
    case AdoptsEdit(runtime) => AdoptingKeepsEach(o, runtime, r);
    case RejectsEdit => RejectingKeepsEach(o, r);
    case SwitchesPath(ofSlot, ofSwitch) => SwitchingThePathKeepsEach(o, ofSlot, ofSwitch, r);
    case ReturnsLanding => ReturningKeepsEach(o, r);
    case TakesAll => TakingAllKeepsEach(o, r);
    case TakesRuntime | ReturnsRuntime | TakesLanding => TakingKeepsEach(o, r);
    case Disposes =>
  }

  lemma {:induction false} EveryStepLeavesPlacesEmpty(o: Ownership, e: Event)
    requires OutLeavesItsPlace(o) && Enabled(o, e)
    ensures OutLeavesItsPlace(Next(o, e))
  {
  }

  /** Putting a run's runtime back loses the one in the slot, so it loses none exactly when the slot is
      empty. */
  lemma {:induction false} AReturnLosesNoneExactlyWhen(o: Ownership)
    requires o.run.Some?
    ensures (forall r :: SamePlaces(o, [], RuntimeReturned(o), r)) <==> o.slot.None?
  {
    if o.slot.Some? {
      assert !SamePlaces(o, [], RuntimeReturned(o), o.slot.value);
    }
  }

  ghost predicate Runs(o: Ownership, events: seq<Event>)
    decreases |events|
  {
    events == [] || (Enabled(o, events[0]) && Runs(Next(o, events[0]), events[1..]))
  }

  function After(o: Ownership, events: seq<Event>): Ownership
    decreases |events|
  {
    if events == [] then o else After(Next(o, events[0]), events[1..])
  }

  function AllBrought(o: Ownership, events: seq<Event>): seq<Runtime>
    decreases |events|
  {
    if events == [] then [] else Brought(o, events[0]) + AllBrought(Next(o, events[0]), events[1..])
  }

  /** Over every run each runtime is in as many places as it was in, with those the run brought; so one
      that is brought once is in exactly one place, and is not handed out twice. */
  lemma {:induction false} EveryRunKeepsEachRuntime(o: Ownership, events: seq<Event>, r: Runtime)
    requires OutLeavesItsPlace(o) && Runs(o, events)
    ensures SamePlaces(o, AllBrought(o, events), After(o, events), r) && OutLeavesItsPlace(After(o, events))
    ensures Owned(o, r) + Times(AllBrought(o, events), r) == 1 ==>
              Owned(After(o, events), r) == 1 && Times(After(o, events).handedOut, r) <= 1
    decreases |events|
  {
    if events != [] {
      EveryStepKeepsEachRuntime(o, events[0], r);
      EveryStepLeavesPlacesEmpty(o, events[0]);
      EveryRunKeepsEachRuntime(Next(o, events[0]), events[1..], r);
      TimesInBoth(Brought(o, events[0]), AllBrought(Next(o, events[0]), events[1..]), r);
    }
  }

  /** At the end of dispose every runtime is handed out, one that is out as it comes back. */
  lemma {:induction false} DisposeHandsOutEveryRuntime(o: Ownership, r: Runtime)
    requires OutLeavesItsPlace(o) && o.disposing && o.run.None?
    ensures Times(LandingReturned(AllTaken(o)).handedOut, r) == Owned(o, r)
  {
    TakingAllKeepsEach(o, r);
    ReturningKeepsEach(AllTaken(o), r);
  }

  // Which runtime serves.

  /** The runtime the next request goes to: the one the recorded switch brought, or the slot's. */
  function Serving(o: Ownership): Option<Runtime> {
    if o.switch.Some? && o.switch.value.runtime.Some? then o.switch.value.runtime else o.slot
  }

  /** The last runtime that one of the switches brought, or `before` when none did. */
  function LastBrought(before: Option<Runtime>, switches: seq<ModelSwitch>): Option<Runtime> {
    if switches == [] then before
    else
      var last := switches[|switches| - 1].runtime;
      if last.Some? then last else LastBrought(before, switches[..|switches| - 1])
  }

  function AllRecorded(o: Ownership, switches: seq<ModelSwitch>): Ownership {
    if switches == [] then o
    else SwitchRecorded(AllRecorded(o, switches[..|switches| - 1]), switches[|switches| - 1])
  }

  lemma {:induction false} RecordingKeepsTheMode(o: Ownership, switches: seq<ModelSwitch>)
    requires !o.disposing
    ensures var after := AllRecorded(o, switches);
            && !after.disposing && after.preparing == o.preparing && after.slot == o.slot
            && if o.preparing then after.switch == o.switch else after.waiting == o.waiting
  {
    if switches != [] {
      RecordingKeepsTheMode(o, switches[..|switches| - 1]);
    }
  }

  /** Of the switches recorded since a request, the last that brought a runtime decides which runtime is in the
      slot once they land: an installed switch's runtime is the one left there. */
  lemma {:induction false} TheLastRuntimeBroughtLands(o: Ownership, switches: seq<ModelSwitch>)
    requires !o.disposing && !o.preparing
    ensures var after := SwitchInstalled(AllRecorded(o, switches));
            after.slot == LastBrought(Serving(o), switches) && after.switch.None?
  {
    RecordingKeepsTheMode(o, switches);
    TheLastBroughtServes(o, switches);
  }

  lemma {:induction false} TheLastBroughtServes(o: Ownership, switches: seq<ModelSwitch>)
    requires !o.disposing && !o.preparing
    ensures Serving(AllRecorded(o, switches)) == LastBrought(Serving(o), switches)
  {
    if switches != [] {
      RecordingKeepsTheMode(o, switches[..|switches| - 1]);
      TheLastBroughtServes(o, switches[..|switches| - 1]);
    }
  }

  /** The runtime that waits for the edit being prepared. */
  function WaitingRuntime(o: Ownership): Option<Runtime> {
    if o.waiting.Some? then o.waiting.value.runtime else None
  }

  lemma {:induction false} TheLastBroughtWaits(o: Ownership, switches: seq<ModelSwitch>)
    requires !o.disposing && o.preparing
    ensures WaitingRuntime(AllRecorded(o, switches)) == LastBrought(WaitingRuntime(o), switches)
  {
    if switches != [] {
      RecordingKeepsTheMode(o, switches[..|switches| - 1]);
      TheLastBroughtWaits(o, switches[..|switches| - 1]);
    }
  }

  /** Switches recorded while an edit is prepared leave the runtime that serves. Accepted, the edit puts its own in
      the slot, and the last one they brought serves the request after it; rejected, that one serves at once, or the
      runtime that served does. */
  lemma {:induction false} SwitchesWaitForTheEdit(o: Ownership, switches: seq<ModelSwitch>, runtime: Runtime)
    requires !o.disposing && o.preparing && o.waiting.None?
    ensures var after, brought := AllRecorded(o, switches), LastBrought(None, switches);
            && Serving(after) == Serving(o)
            && EditAdopted(after, runtime).slot == Some(runtime)
            && Serving(EditAdopted(after, runtime)) == (if brought.Some? then brought else Some(runtime))
            && Serving(EditRejected(after)) == (if brought.Some? then brought else Serving(o))
  {
    RecordingKeepsTheMode(o, switches);
    TheLastBroughtWaits(o, switches);
  }

  /** Readying the next request takes out the runtime that serves it. Put back, it serves again, unless it came with
      a switch and another switch brought a runtime meanwhile: then that one does, and it is given back. */
  lemma {:induction false} AReadiedRuntimeServesAgain(o: Ownership, switches: seq<ModelSwitch>)
    requires !o.disposing && !o.preparing && o.ahead.None? && Serving(o).Some?
    ensures var out := LandingTaken(o);
            && out.ahead == Some((Serving(o).value, o.switch.Some? && o.switch.value.runtime.Some?))
            && var back := LandingReturned(AllRecorded(out, switches));
            && back.ahead.None? && Serving(back) == LastBrought(Serving(o), switches)
  {
    var out := LandingTaken(o);
    RecordingKeepsTheMode(out, switches);
    RecordingKeepsWhatIsOut(out, switches);
    TheSwitchHoldsTheLastBrought(out, switches);
    BroughtOrBefore(Serving(o), switches);
  }

  lemma {:induction false} RecordingKeepsWhatIsOut(o: Ownership, switches: seq<ModelSwitch>)
    ensures AllRecorded(o, switches).ahead == o.ahead
  {
    if switches != [] {
      RecordingKeepsWhatIsOut(o, switches[..|switches| - 1]);
    }
  }

  lemma {:induction false} TheSwitchHoldsTheLastBrought(o: Ownership, switches: seq<ModelSwitch>)
    requires !o.disposing && !o.preparing && (o.switch.Some? ==> o.switch.value.runtime.None?)
    ensures var switch := AllRecorded(o, switches).switch;
            && (switch.None? ==> o.switch.None? && switches == [])
            && (o.switch.None? && switches == [] ==> switch.None?)
            && (switch.Some? ==> switch.value.runtime == LastBrought(None, switches))
  {
    if switches != [] {
      RecordingKeepsTheMode(o, switches[..|switches| - 1]);
      TheSwitchHoldsTheLastBrought(o, switches[..|switches| - 1]);
    }
  }

  lemma {:induction false} BroughtOrBefore(before: Option<Runtime>, switches: seq<ModelSwitch>)
    ensures LastBrought(before, switches)
            == if LastBrought(None, switches).Some? then LastBrought(None, switches) else before
  {
    if switches != [] {
      BroughtOrBefore(before, switches[..|switches| - 1]);
    }
  }

  /** A switch of versions puts the slot's fresh runtime in the slot and the switch's with the switch, where there
      was one. */
  lemma {:induction false} AVersionSwitchRenewsWhatServes(o: Ownership, ofSlot: Runtime, ofSwitch: Runtime)
    ensures var after := PathSwitched(o, ofSlot, ofSwitch);
            && after.slot == (if o.slot.Some? then Some(ofSlot) else None)
            && Serving(after) == (if o.switch.Some? && o.switch.value.runtime.Some? then Some(ofSwitch)
                                  else if o.slot.Some? then Some(ofSlot) else None)
  {
  }

  class RuntimeSlots {
    var slot: Option<Runtime>
    var switch: Option<ModelSwitch>
    var waiting: Option<ModelSwitch>
    var retired: seq<Runtime>
    var preparing: bool
    var disposing: bool
    // Whom the session gave runtimes to.
    ghost var run: Option<Runtime>
    ghost var ahead: Option<(Runtime, bool)>
    ghost var handedOut: seq<Runtime>

    ghost function Now(): Ownership
      reads this
    {
      Ownership(slot, run, ahead, switch, waiting, retired, handedOut, preparing, disposing)
    }

    method PlaceRuntime(runtime: Runtime) returns (replaced: Option<Runtime>)
      modifies this
      ensures Now() == Placed(old(Now()), runtime) && replaced == old(slot)
    {
      replaced := slot;
      slot := Some(runtime);
      handedOut := handedOut + AsSeq(replaced);
    }

    /** Records a switch in place of the pending one; a session that is closing gives it back. */
    method RecordSwitch(recorded: ModelSwitch) returns (back: Option<ModelSwitch>)
      modifies this
      ensures Now() == SwitchRecorded(old(Now()), recorded)
      ensures back == if old(disposing) then Some(recorded) else None
    {
      if disposing {
        handedOut := handedOut + AsSeq(recorded.runtime);
        return Some(recorded);
      }
      if preparing {
        var (kept, more) := Replaced(waiting, recorded);
        waiting, retired := Some(kept), retired + more;
      } else {
        var (kept, more) := Replaced(switch, recorded);
        switch, retired := Some(kept), retired + more;
      }
      back := None;
    }

    /** The recorded switch lands; whatever runtime it takes the place of is given back to be closed. */
    method InstallSwitch() returns (replaced: seq<Runtime>)
      modifies this
      ensures Now() == SwitchInstalled(old(Now()))
      ensures handedOut == old(handedOut) + replaced
    {
      replaced := [];
      if switch.None? {
        return;
      }
      var landing := switch.value.runtime;
      switch := None;
      replaced := retired;
      retired := [];
      handedOut := handedOut + replaced;
      if landing.Some? {
        var before := PlaceRuntime(landing.value);
        assert old(handedOut) + replaced + AsSeq(before) == old(handedOut) + (replaced + AsSeq(before));
        replaced := replaced + AsSeq(before);
      }
    }

    /** Adopts the runtime an accepted edit's replacement runs on; returns those it discarded. */
    method AdoptEdit(runtime: Runtime) returns (discarded: seq<Runtime>)
      modifies this
      ensures Now() == EditAdopted(old(Now()), runtime)
      ensures handedOut == old(handedOut) + discarded
    {
      var before := PlaceRuntime(runtime);
      var others := OfSwitch(switch) + retired;
      assert old(handedOut) + AsSeq(before) + others == old(handedOut) + (AsSeq(before) + others);
      discarded := AsSeq(before) + others;
      handedOut := handedOut + others;
      switch, waiting, retired, preparing := waiting, None, [], false;
    }

    method RejectEdit()
      modifies this
      ensures Now() == EditRejected(old(Now()))
    {
      preparing := false;
      if waiting.Some? {
        var (kept, more) := Replaced(switch, waiting.value);
        waiting, switch, retired := None, Some(kept), retired + more;
      }
    }

    /** Puts fresh runtimes in place of those there, after a switch of versions; returns those discarded. */
    method AdoptSwitch(ofSlot: Runtime, ofSwitch: Runtime) returns (discarded: seq<Runtime>)
      modifies this
      ensures Now() == PathSwitched(old(Now()), ofSlot, ofSwitch)
      ensures handedOut == old(handedOut) + discarded
    {
      discarded := [];
      if slot.Some? {
        var before := PlaceRuntime(ofSlot);
        discarded := AsSeq(before);
      }
      if switch.Some? && switch.value.runtime.Some? {
        var last := AsSeq(switch.value.runtime);
        assert old(handedOut) + discarded + last == old(handedOut) + (discarded + last);
        switch, handedOut := Some(ModelSwitch(Some(ofSwitch))), handedOut + last;
        discarded := discarded + last;
      }
    }

    method TakeRuntime() returns (taken: Option<Runtime>)
      requires run.None?
      modifies this
      ensures Now() == RuntimeTaken(old(Now())) && taken == old(slot)
    {
      taken := slot;
      if slot.Some? {
        run := slot;
      }
      slot := None;
    }

    method ReturnRuntime(runtime: Runtime)
      requires run == Some(runtime)
      modifies this
      ensures Now() == RuntimeReturned(old(Now()))
    {
      slot := Some(runtime);
      run := None;
    }

    /** Hands out a runtime for the next request: the one a recorded switch brought, or the slot's. */
    method TakeLandingRuntime() returns (taken: Option<(Runtime, bool)>)
      requires ahead.None?
      modifies this
      ensures Now() == LandingTaken(old(Now())) && taken == ahead
    {
      if switch.Some? && switch.value.runtime.Some? {
        taken := Some((switch.value.runtime.value, true));
        switch := Some(ModelSwitch(None));
      } else if slot.Some? {
        taken := Some((slot.value, false));
        slot := None;
      } else {
        taken := None;
      }
      ahead := taken;
    }

    /** Puts it back, and returns the runtime that serves nothing any more. */
    method ReturnLandingRuntime(runtime: Runtime, fromSwitch: bool) returns (unused: Option<Runtime>)
      requires ahead == Some((runtime, fromSwitch))
      modifies this
      ensures Now() == LandingReturned(old(Now()))
      ensures handedOut == old(handedOut) + AsSeq(unused)
    {
      ahead := None;
      if !disposing && !fromSwitch {
        unused := PlaceRuntime(runtime);
      } else if !disposing && switch.Some? && switch.value.runtime.None? {
        switch := Some(ModelSwitch(Some(runtime)));
        unused := None;
      } else {
        handedOut := handedOut + [runtime];
        unused := Some(runtime);
      }
    }

    /** Every provider runtime the session holds, for closing. */
    method TakeRuntimes() returns (runtimes: seq<Runtime>)
      modifies this
      ensures Now() == AllTaken(old(Now()))
      ensures handedOut == old(handedOut) + runtimes
    {
      runtimes := AsSeq(slot) + OfSwitch(switch) + OfSwitch(waiting) + retired;
      handedOut := handedOut + runtimes;
      slot, switch, waiting, retired := None, None, None, [];
    }
  }
}
