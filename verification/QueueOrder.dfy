/**
 The order in which a session's messages go (crates/agent-session/src/core.rs): what starts next, and that over
 a run messages are taken in the order they were queued.
 */
module QueueOrder {
  import opened Wrappers
  import opened Blocks
  import opened Inputs
  import opened SessionCores
  import opened Conservation
  import opened SessionRuns
  import opened MessageRuns

  // What starts next.

  /** The earliest steer that waits is at `at`. */
  ghost predicate IsEarliestSteer(entries: seq<Input>, at: nat) {
    at < |entries| && entries[at].Steer? && forall k :: 0 <= k < at ==> !entries[k].Steer?
  }

  ghost predicate NoSteerWaits(entries: seq<Input>) {
    forall k :: 0 <= k < |entries| ==> !entries[k].Steer?
  }

  /** The action runs that `first` asks for, and `queue` is what waits; its start ends a hold of the input. */
  ghost predicate Starts(after: Core, first: Pending, queue: seq<Pending>) {
    && after.activity.Running? && after.activity.run.kind == first.kind && after.activity.run.turn == first.turn
    && after.activity.run.cancel.None? && !after.activity.run.taken && (after.activity.run.unwritten <==> first.kind.Send?)
    && after.pending == queue && !after.held
  }

  /** The queue's first entry starts and the others wait on, unless it is no message and a steer waits: then the
      earliest steer starts as a message and the queue stays. With neither, a continuation starts when input wants
      one, and else the session is idle. */
  ghost predicate StartsTheRightOne(c: Core, after: Core, next: nat) {
    && (forall at: nat :: IsEarliestSteer(c.inputs.entries, at) && (c.pending == [] || !c.pending[0].kind.Send?) ==>
                       && Starts(after, Pending(Send(c.inputs.entries[at].content, false), c.inputs.entries[at].id), c.pending)
                       && after.inputs.entries == c.inputs.entries[..at] + c.inputs.entries[at + 1..])
    && (c.pending != [] && (c.pending[0].kind.Send? || NoSteerWaits(c.inputs.entries)) ==>
          Starts(after, c.pending[0], c.pending[1..]) && after.inputs == c.inputs)
    && (c.pending == [] && NoSteerWaits(c.inputs.entries) ==>
          if WantsContinuation(c) then Starts(after, Pending(Continue, next), []) && after.inputs == c.inputs
          else after.activity.Idle? && after.pending == [])
  }

  lemma {:induction false} TheFirstSteerIsTheEarliest(entries: seq<Input>)
    ensures SteerAt(entries, None) < |entries| ==> IsEarliestSteer(entries, SteerAt(entries, None))
    ensures SteerAt(entries, None) == |entries| <==> NoSteerWaits(entries)
    ensures forall at: nat :: IsEarliestSteer(entries, at) ==> at == SteerAt(entries, None)
  {
  }

  lemma {:induction false} StartingNextStartsTheRightOne(c: Core, seen: set<nat>, next: nat)
    requires !c.disposing && !c.activity.Running?
    ensures StartsTheRightOne(c, StartNext(c, seen, next), next)
  {
    TheFirstSteerIsTheEarliest(c.inputs.entries);
    var after := StartNext(c, seen, next);
    forall at: nat | IsEarliestSteer(c.inputs.entries, at) && (c.pending == [] || !c.pending[0].kind.Send?)
      ensures Starts(after, Pending(Send(c.inputs.entries[at].content, false), c.inputs.entries[at].id), c.pending)
      ensures after.inputs.entries == c.inputs.entries[..at] + c.inputs.entries[at + 1..]
    {
      assert at == SteerAt(c.inputs.entries, None);
    }
    if LastTurn(c.transcript).Some? {
      WritingInputsChangesLittle(c.(activity := Idle), LastTurn(c.transcript).value, Everything, seen, next);
    }
  }

  // The line of messages.

  /** The messages that are to be taken: the running action's, while it is not written, and the queue's. */
  function Messages(c: Core): seq<Pending> {
    (if c.activity.Running? && c.activity.run.unwritten && c.activity.run.kind.Send?
     then [Pending(c.activity.run.kind, c.activity.run.turn)] else [])
    + Sends(c.pending)
  }

  lemma {:induction false} SendsOfBoth(a: seq<Pending>, b: seq<Pending>)
    ensures Sends(a + b) == Sends(a) + Sends(b)
  {
    if b == [] {
      assert a + b == a;
    } else {
      assert (a + b)[..|a + b| - 1] == a + b[..|b| - 1];
      SendsOfBoth(a, b[..|b| - 1]);
    }
  }

  lemma {:induction false} SendsOfOne(action: Pending)
    ensures Sends([action]) == if action.kind.Send? then [action] else []
  {
    assert [action][..0] == [];
  }

  lemma {:induction false} SendsOfOneMore(pending: seq<Pending>, action: Pending)
    ensures Sends(pending + [action]) == Sends(pending) + if action.kind.Send? then [action] else []
    ensures Sends([action] + pending) == (if action.kind.Send? then [action] else []) + Sends(pending)
  {
    SendsOfBoth(pending, [action]);
    SendsOfBoth([action], pending);
    SendsOfOne(action);
  }

  /** `steer` opened its turn without having been queued; `queued` are the messages of the queue, each in its
      turn. */
  datatype Line = Line(steer: Option<Pending>, queued: seq<Pending>)

  function First(line: Line): seq<Pending> {
    if line.steer.Some? then [line.steer.value] else []
  }

  /** The messages to be taken are the steer that opened its turn, which runs or was put back first, and those
      queued. */
  ghost predicate IsLineOf(c: Core, line: Line) {
    && Messages(c) == First(line) + line.queued
    && (line.steer.Some? ==>
          || (c.activity.Running? && c.activity.run.unwritten && c.activity.run.kind.Send?)
          || (c.pending != [] && c.pending[0] == line.steer.value))
  }

  lemma {:induction false} TheQueuesFirstStarts(c: Core, after: Core)
    requires !c.activity.Running? && c.pending != [] && Starts(after, c.pending[0], c.pending[1..])
    ensures Messages(after) == Messages(c)
  {
    assert c.pending == [c.pending[0]] + c.pending[1..];
    SendsOfOneMore(c.pending[1..], c.pending[0]);
  }

  lemma {:induction false} ASteerStarts(c: Core, after: Core, steer: Pending)
    requires !c.activity.Running? && steer.kind.Send? && Starts(after, steer, c.pending)
    ensures Messages(after) == [steer] + Messages(c)
  {
    assert Messages(c) == Sends(c.pending);
  }

  lemma {:induction false} NothingOfTheQueueStarts(c: Core, after: Core)
    requires !c.activity.Running? && c.pending == [] && after.pending == []
    requires after.activity.Idle? || (after.activity.Running? && !after.activity.run.unwritten)
    ensures Messages(after) == Messages(c)
  {
  }

  lemma {:induction false} StartingNextMovesTheLine(c: Core, seen: set<nat>, next: nat, line: Line) returns (after: Line)
    requires !c.disposing && !c.activity.Running? && IsLineOf(c, line)
    ensures IsLineOf(StartNext(c, seen, next), after) && after.queued == line.queued
  {
    StartingNextStartsTheRightOne(c, seen, next);
    TheFirstSteerIsTheEarliest(c.inputs.entries);
    after := line;
    var started := StartNext(c, seen, next);
    var at := SteerAt(c.inputs.entries, None);
    if at < |c.inputs.entries| && (c.pending == [] || !c.pending[0].kind.Send?) {
      NoSteerInTheQueue(c, line);
      var steer := Pending(started.activity.run.kind, started.activity.run.turn);
      ASteerStarts(c, started, steer);
      after := Line(Some(steer), line.queued);
      assert Messages(c) == line.queued;
    } else if c.pending != [] {
      TheQueuesFirstStarts(c, started);
      TheSteerIsAMessage(c, line);
    } else {
      NothingOfTheQueueStarts(c, started);
      NoSteerInTheQueue(c, line);
    }
  }

  lemma {:induction false} SendsAreMessages(pending: seq<Pending>)
    ensures forall k :: 0 <= k < |Sends(pending)| ==> Sends(pending)[k].kind.Send?
  {
  }

  /** A steer that was put back is the queue's first entry, and a message. */
  lemma {:induction false} NoSteerInTheQueue(c: Core, line: Line)
    requires !c.activity.Running? && IsLineOf(c, line) && (c.pending == [] || !c.pending[0].kind.Send?)
    ensures line.steer.None?
  {
    TheSteerIsAMessage(c, line);
  }

  lemma {:induction false} TheSteerIsAMessage(c: Core, line: Line)
    requires !c.activity.Running? && IsLineOf(c, line)
    ensures line.steer.Some? ==> line.steer.value.kind.Send?
  {
    SendsAreMessages(c.pending);
    assert Messages(c) == Sends(c.pending);
    assert line.steer.Some? ==> Messages(c)[0] == line.steer.value;
  }

  lemma {:induction false} QueuingOneMore(c: Core, kind: ActionKind, turn: TurnId, line: Line)
    requires IsLineOf(c, line)
    ensures IsLineOf(c.(pending := c.pending + [Pending(kind, turn)]),
                     line.(queued := line.queued + if kind.Send? then [Pending(kind, turn)] else []))
  {
    var one := if kind.Send? then [Pending(kind, turn)] else [];
    SendsOfOneMore(c.pending, Pending(kind, turn));
    assert First(line) + (line.queued + one) == First(line) + line.queued + one;
    var more := c.(pending := c.pending + [Pending(kind, turn)]);
    var running := Messages(c)[..|Messages(c)| - |Sends(c.pending)|];
    assert Messages(c) == running + Sends(c.pending);
    assert Messages(more) == running + (Sends(c.pending) + one) == running + Sends(c.pending) + one;
  }

  lemma {:induction false} PushingMovesTheLine(
      c: Core, kind: ActionKind, turn: TurnId, seen: set<nat>, next: nat, line: Line)
    returns (after: Line)
    requires !c.disposing && IsLineOf(c, line)
    ensures IsLineOf(Pushed(c, kind, turn, seen, next), after)
    ensures after.queued == line.queued + if kind.Send? then [Pending(kind, turn)] else []
  {
    QueuingOneMore(c, kind, turn, line);
    after := line.(queued := line.queued + if kind.Send? then [Pending(kind, turn)] else []);
    if c.activity.Idle? {
      after := StartingNextMovesTheLine(c.(pending := c.pending + [Pending(kind, turn)]), seen, next, after);
    }
  }

  lemma {:induction false} WakingMovesTheLine(c: Core, seen: set<nat>, next: nat, line: Line) returns (after: Line)
    requires !c.disposing && IsLineOf(c, line)
    ensures IsLineOf(Woken(c, seen, next), after) && after.queued == line.queued
  {
    after := line;
    if c.activity.Idle? && c.pending == [] {
      after := StartingNextMovesTheLine(c, seen, next, line);
    }
  }

  // A step.

  /** The message a step queues. */
  function QueuedBy(c: Core, e: Event): seq<Pending> {
    match e
    case SendsMessage(id, content, scheduled) => if Accepts(c, e) then [Pending(Send(content, scheduled), id)] else []
    case Steers(id, content) => if Accepts(c, e) && c.activity.Idle? then [Pending(Send(content, false), id)] else []
    case _ => []
  }

  /** What the user does to the queue's order, or ends the session with. */
  predicate Reorders(e: Event) {
    e.SendsNext? || e.Dequeues? || e.ClearsQueue? || e.Aborts? || e.Disposes?
  }

  lemma {:induction false} AnAdmissionMovesTheLine(
      c: Core, e: Event, seen: set<nat>, next: nat, line: Line) returns (after: Line)
    requires Sound(c) && Enabled(c, e) && !c.disposing && IsLineOf(c, line) && (Admits(e) || e.Steers?)
    ensures IsLineOf(Next(c, e, seen, next), after) && after.queued == line.queued + QueuedBy(c, e)
  {
    after := line;
    assert line.queued + [] == line.queued;
    match e
    case SendsMessage(id, content, scheduled) =>
      if Accepts(c, e) { after := PushingMovesTheLine(c, Send(content, scheduled), id, seen, next, line); }
    case AsksForAction(kind, turn) => if !Refuses(c) { after := PushingMovesTheLine(c, kind, turn, seen, next, line); }
    case AsksForEdit(turn) =>
      if !Refuses(c) { after := PushingMovesTheLine(c.(preparing := true), Edit, turn, seen, next, line); }
    case CompactsIdle(turn) =>
      if Next(c, e, seen, next) != c { after := PushingMovesTheLine(c, Compact(true), turn, seen, next, line); }
    case Steers(id, content) =>
      if Accepts(c, e) && c.activity.Idle? {
        after := PushingMovesTheLine(c, Send(content, false), id, seen, next, line);
      }
  }

  lemma {:induction false} AnArrivalMovesTheLine(
      c: Core, e: Event, seen: set<nat>, next: nat, line: Line) returns (after: Line)
    requires Sound(c) && Enabled(c, e) && !c.disposing && IsLineOf(c, line)
    requires e.SendsAgentMessage? || e.Reports? || e.ReleasesInput? || e.PassesFailure?
    ensures IsLineOf(Next(c, e, seen, next), after) && after.queued == line.queued
  {
    after := line;
    match e
    case SendsAgentMessage(id, content, fromProduct) =>
      var added := c.(inputs := Added(c.inputs, Agent(id, content)));
      if Next(c, e, seen, next) == Woken(c, seen, next) {
        after := WakingMovesTheLine(c, seen, next, line);
      } else if Next(c, e, seen, next) == Woken(added, seen, next) {
        after := WakingMovesTheLine(added, seen, next, line);
      }
    case Reports(report) =>
      if Next(c, e, seen, next) != c {
        after := WakingMovesTheLine(c.(inputs := Added(c.inputs, report)), seen, next, line);
      }
    case ReleasesInput => after := WakingMovesTheLine(c.(held := false), seen, next, line);
    case PassesFailure(failure) =>
      if Next(c, e, seen, next) != c { after := WakingMovesTheLine(c.(passedFailure := Some(failure)), seen, next, line); }
  }

  lemma {:induction false} OtherStepsFromOutsideMoveNothing(c: Core, e: Event, seen: set<nat>, next: nat, line: Line)
    requires Sound(c) && Enabled(c, e) && !c.disposing && IsLineOf(c, line)
    requires e.CancelsSteer? || e.HoldsInput? || e.StopsForHold? || e.StopsForEdit?
    ensures IsLineOf(Next(c, e, seen, next), line)
  {
  }

  // The worker's steps.

  /** The running action's message. */
  function Front(c: Core): Pending
    requires c.activity.Running?
  {
    Pending(c.activity.run.kind, c.activity.run.turn)
  }

  /** `front` leaves the line: as the first that was queued, which is `left`, or as the steer ahead of them. */
  ghost predicate Takes(front: Pending, line: Line, left: seq<Pending>, rest: Line) {
    left + rest.queued == line.queued && rest.steer.None? && left == if line.steer.Some? then [] else [front]
  }

  /** The message at the line's front leaves it: it is written, or given back. */
  lemma {:induction false} TheFrontLeaves(c: Core, after: Core, line: Line) returns (rest: Line, left: seq<Pending>)
    requires IsLineOf(c, line) && c.activity.Running? && c.activity.run.unwritten && c.activity.run.kind.Send?
    requires after.pending == c.pending && (after.activity.Running? ==> !after.activity.run.unwritten)
    ensures IsLineOf(after, rest) && Takes(Front(c), line, left, rest)
  {
    var front := Pending(c.activity.run.kind, c.activity.run.turn);
    assert Messages(c) == [front] + Sends(c.pending) && Messages(after) == Sends(c.pending);
    if line.steer.Some? {
      rest, left := Line(None, line.queued), [];
      assert (First(line) + line.queued)[1..] == line.queued && ([front] + Sends(c.pending))[1..] == Sends(c.pending);
    } else {
      rest, left := Line(None, line.queued[1..]), [line.queued[0]];
      assert line.queued == [front] + Sends(c.pending);
    }
  }

  /** A hold puts the message back first, where it was in the line. */
  lemma {:induction false} PuttingBackMovesNothing(c: Core, after: Core, line: Line)
    requires IsLineOf(c, line) && c.activity.Running? && c.activity.run.unwritten && c.activity.run.kind.Send?
    requires after.pending == [Pending(c.activity.run.kind, c.activity.run.turn)] + c.pending
    requires after.activity.Running? ==> !after.activity.run.unwritten
    ensures IsLineOf(after, line)
  {
    var front := Pending(c.activity.run.kind, c.activity.run.turn);
    SendsOfOneMore(c.pending, front);
    assert Messages(c) == [front] + Sends(c.pending) == Messages(after);
    assert line.steer.Some? ==> Messages(c)[0] == line.steer.value;
  }

  /** The action runs on with its message taken, and nothing of the queue moved. */
  lemma {:induction false} NothingMoves(c: Core, after: Core, line: Line)
    requires IsLineOf(c, line) && after.pending == c.pending
    requires c.activity.Running? ==> !c.activity.run.unwritten || !c.activity.run.kind.Send?
    requires after.activity.Running? ==> !after.activity.run.unwritten
    ensures IsLineOf(after, line)
  {
    assert Messages(c) == Sends(c.pending) == Messages(after);
  }

  /** The step takes the running message: it is written, by the turn or by a Stop, or given back. */
  predicate TakesTheMessage(c: Core, e: Event) {
    c.activity.Running? && c.activity.run.unwritten && c.activity.run.kind.Send?
    && (e.WritesMessage? || (e.RecordsStop? && c.activity.run.cancel == Some(Stop)))
  }

  lemma {:induction false} RecordingAStopMovesTheLine(c: Core, seen: set<nat>, next: nat, line: Line)
    returns (rest: Line, left: seq<Pending>)
    requires Sound(c) && Enabled(c, RecordsStop) && IsLineOf(c, line)
    ensures IsLineOf(Next(c, RecordsStop, seen, next), rest)
    ensures if TakesTheMessage(c, RecordsStop) then Takes(Front(c), line, left, rest) else left == [] && rest == line
  {
    var (reason, run) := (c.activity.run.cancel.value, c.activity.run);
    var after := Next(c, RecordsStop, seen, next);
    ARecordedStopEndsEachCall(c, reason, seen, next);
    TheMessageIsSettled(c, reason, seen, next);
    rest, left := line, [];
    if !run.unwritten {
      NothingMoves(c, after, line);
    } else if reason.Hold? {
      PuttingBackMovesNothing(c, after, line);
    } else {
      rest, left := TheFrontLeaves(c, after, line);
    }
  }

  lemma {:induction false} AMarkMovesNothing(c: Core, reason: Reason, givingBack: bool, began: bool, next: nat)
    ensures Marked(CallsAborted(c), reason, givingBack, began, next).pending == c.pending
  {
  }

  lemma {:induction false} AWrittenStopSettles(c: Core, reason: Reason, seen: set<nat>, next: nat)
    requires Sound(c) && Works(c) && !reason.Shutdown?
    ensures StopWritten(c, reason, seen, next).pending
            == if c.activity.run.unwritten && reason.Hold?
               then [Pending(c.activity.run.kind, c.activity.run.turn)] + c.pending else c.pending
  {
    var given := if reason.Stop? && c.activity.run.givingBack then GivenBack(c) else c;
    var settled := UnwrittenSettled(given, reason, next);
    WritingInputsChangesLittle(settled, settled.activity.run.turn, AllButSteers, seen, next);
  }

  /** A recorded stop puts the message back first for a hold, when it is not written, and else leaves the queue. */
  lemma {:induction false} TheMessageIsSettled(c: Core, reason: Reason, seen: set<nat>, next: nat)
    requires Sound(c) && Works(c) && !reason.Shutdown?
    ensures StopRecorded(c, reason, seen, next).pending
            == if c.activity.run.unwritten && reason.Hold?
               then [Pending(c.activity.run.kind, c.activity.run.turn)] + c.pending else c.pending
  {
    AWrittenStopSettles(c, reason, seen, next);
    var written := StopWritten(c, reason, seen, next);
    AMarkMovesNothing(written, reason, c.activity.run.givingBack, written.activity.run.began, next);
  }

  lemma {:induction false} OtherStepsOfTheWorkerMoveNothing(c: Core, e: Event, seen: set<nat>, next: nat, line: Line)
    requires Sound(c) && Enabled(c, e) && !c.disposing && IsLineOf(c, line) && !IsFromOutside(e)
    requires WorksOnItsTurn(c) && !e.RecordsStop? && !e.WritesMessage? && !e.ShutsDown?
    ensures IsLineOf(Next(c, e, seen, next), line)
  {
    var after := Next(c, e, seen, next);
    if e.OpensContinuation? || e.WritesInputs? || e.Fails? {
      var take := if e.WritesInputs? then e.take else if e.Fails? then AllButSteers else Everything;
      WritingInputsChangesLittle(c, c.activity.run.turn, take, seen, next);
    }
    NothingMoves(c, after, line);
  }

  lemma {:induction false} TheEndMovesTheLine(
      c: Core, e: Event, seen: set<nat>, next: nat, line: Line) returns (rest: Line)
    requires Sound(c) && Enabled(c, e) && !c.disposing && IsLineOf(c, line)
    requires e.TakesAction? || e.EndsAction? || e.StartsNext?
    ensures IsLineOf(Next(c, e, seen, next), rest) && rest.queued == line.queued
  {
    rest := line;
    match e
    case TakesAction =>
    case EndsAction => NothingMoves(c, ActionEnded(c), line);
    case StartsNext => rest := StartingNextMovesTheLine(c, seen, next, line);
  }

  /** A step of a session that is not being disposed queues at the line's end, takes at most its front, and moves
      nothing else. */
  ghost predicate Moves(c: Core, e: Event, line: Line, left: seq<Pending>, rest: Line) {
    left + rest.queued == line.queued + QueuedBy(c, e)
    && left == (if TakesTheMessage(c, e) && line.steer.None? then [Front(c)] else [])
    && (TakesTheMessage(c, e) && line.steer.Some? ==> line.steer.value == Front(c) && rest.steer.None?)
  }

  lemma {:induction false} AStepFromOutsideMovesTheLine(c: Core, e: Event, seen: set<nat>, next: nat, line: Line)
    returns (rest: Line)
    requires Sound(c) && Enabled(c, e) && !c.disposing && IsLineOf(c, line) && IsFromOutside(e) && !Reorders(e)
    ensures IsLineOf(Next(c, e, seen, next), rest) && Moves(c, e, line, [], rest)
  {
    if Admits(e) || e.Steers? {
      rest := AnAdmissionMovesTheLine(c, e, seen, next, line);
    } else if e.SendsAgentMessage? || e.Reports? || e.ReleasesInput? || e.PassesFailure? {
      rest := AnArrivalMovesTheLine(c, e, seen, next, line);
    } else {
      OtherStepsFromOutsideMoveNothing(c, e, seen, next, line);
      rest := line;
    }
  }

  lemma {:induction false} WritingMovesTheLine(c: Core, seen: set<nat>, next: nat, line: Line)
    returns (rest: Line, left: seq<Pending>)
    requires Sound(c) && Enabled(c, WritesMessage) && IsLineOf(c, line)
    ensures IsLineOf(Next(c, WritesMessage, seen, next), rest) && Takes(Front(c), line, left, rest)
  {
    rest, left := TheFrontLeaves(c, MessageWritten(c, next), line);
  }

  lemma {:induction false} TheSteerIsTheFront(c: Core, line: Line)
    requires IsLineOf(c, line) && c.activity.Running? && c.activity.run.unwritten && c.activity.run.kind.Send?
    ensures line.steer.Some? ==> line.steer.value == Front(c)
  {
    assert Messages(c)[0] == Front(c);
  }

  lemma {:induction false} TakingMoves(c: Core, e: Event, line: Line, rest: Line, left: seq<Pending>)
    requires IsLineOf(c, line) && TakesTheMessage(c, e) && Takes(Front(c), line, left, rest) && !IsFromOutside(e)
    ensures Moves(c, e, line, left, rest)
  {
    TheSteerIsTheFront(c, line);
    assert line.queued + QueuedBy(c, e) == line.queued;
  }

  lemma {:induction false} TakingNothingMoves(c: Core, e: Event, line: Line, rest: Line)
    requires !TakesTheMessage(c, e) && rest.queued == line.queued && !IsFromOutside(e)
    ensures Moves(c, e, line, [], rest)
  {
    assert line.queued + QueuedBy(c, e) == line.queued;
  }

  lemma {:induction false} AStepOfTheWorkerMovesTheLine(c: Core, e: Event, seen: set<nat>, next: nat, line: Line)
    returns (rest: Line, left: seq<Pending>)
    requires Sound(c) && Enabled(c, e) && !c.disposing && IsLineOf(c, line) && !IsFromOutside(e)
    ensures IsLineOf(Next(c, e, seen, next), rest) && Moves(c, e, line, left, rest)
  {
    rest, left := line, [];
    if e.WritesMessage? {
      rest, left := WritingMovesTheLine(c, seen, next, line);
      TakingMoves(c, e, line, rest, left);
    } else if e.RecordsStop? {
      rest, left := RecordingAStopMovesTheLine(c, seen, next, line);
      if TakesTheMessage(c, e) { TakingMoves(c, e, line, rest, left); } else { TakingNothingMoves(c, e, line, rest); }
    } else {
      if e.TakesAction? || e.EndsAction? || e.StartsNext? {
        rest := TheEndMovesTheLine(c, e, seen, next, line);
      } else {
        OtherStepsOfTheWorkerMoveNothing(c, e, seen, next, line);
      }
      TakingNothingMoves(c, e, line, rest);
    }
  }

  lemma {:induction false} AStepMovesTheLine(c: Core, e: Event, seen: set<nat>, next: nat, line: Line)
    returns (rest: Line, left: seq<Pending>)
    requires Sound(c) && Enabled(c, e) && !c.disposing && IsLineOf(c, line) && !Reorders(e)
    ensures IsLineOf(Next(c, e, seen, next), rest) && Moves(c, e, line, left, rest)
  {
    if IsFromOutside(e) {
      rest := AStepFromOutsideMovesTheLine(c, e, seen, next, line);
      left := [];
    } else {
      rest, left := AStepOfTheWorkerMovesTheLine(c, e, seen, next, line);
    }
  }

  // Only a dispose begins one.

  lemma {:induction false} StartingNextDisposesNothing(c: Core, seen: set<nat>, next: nat)
    requires !c.disposing
    ensures !StartNext(c, seen, next).disposing
  {
    if LastTurn(c.transcript).Some? {
      WritingInputsChangesLittle(c.(activity := Idle), LastTurn(c.transcript).value, Everything, seen, next);
    }
  }

  lemma {:induction false} PushingDisposesNothing(c: Core, kind: ActionKind, turn: TurnId, seen: set<nat>, next: nat)
    requires !c.disposing
    ensures !Pushed(c, kind, turn, seen, next).disposing
  {
    StartingNextDisposesNothing(c.(pending := c.pending + [Pending(kind, turn)]), seen, next);
  }

  lemma {:induction false} WakingDisposesNothing(c: Core, seen: set<nat>, next: nat)
    requires !c.disposing
    ensures !Woken(c, seen, next).disposing
  {
    StartingNextDisposesNothing(c, seen, next);
  }

  lemma {:induction false} AnAdmissionDisposesNothing(c: Core, e: Event, seen: set<nat>, next: nat)
    requires Sound(c) && Enabled(c, e) && !c.disposing && (Admits(e) || e.Steers?)
    ensures !Next(c, e, seen, next).disposing
  {
    match e
    case SendsMessage(id, content, scheduled) => PushingDisposesNothing(c, Send(content, scheduled), id, seen, next);
    case AsksForAction(kind, turn) => PushingDisposesNothing(c, kind, turn, seen, next);
    case AsksForEdit(turn) => PushingDisposesNothing(c.(preparing := true), Edit, turn, seen, next);
    case CompactsIdle(turn) => PushingDisposesNothing(c, Compact(true), turn, seen, next);
    case Steers(id, content) => PushingDisposesNothing(c, Send(content, false), id, seen, next);
  }

  lemma {:induction false} AnArrivalDisposesNothing(c: Core, e: Event, seen: set<nat>, next: nat)
    requires Sound(c) && Enabled(c, e) && !c.disposing
    requires e.SendsAgentMessage? || e.Reports? || e.ReleasesInput? || e.PassesFailure?
    ensures !Next(c, e, seen, next).disposing
  {
    match e
    case SendsAgentMessage(id, content, _) =>
      WakingDisposesNothing(c, seen, next);
      WakingDisposesNothing(c.(inputs := Added(c.inputs, Agent(id, content))), seen, next);
    case Reports(report) => WakingDisposesNothing(c.(inputs := Added(c.inputs, report)), seen, next);
    case ReleasesInput => WakingDisposesNothing(c.(held := false), seen, next);
    case PassesFailure(failure) => WakingDisposesNothing(c.(passedFailure := Some(failure)), seen, next);
  }

  lemma {:induction false} AStepOfTheWorkerDisposesNothing(c: Core, e: Event, seen: set<nat>, next: nat)
    requires Sound(c) && Enabled(c, e) && !c.disposing && !IsFromOutside(e)
    ensures !Next(c, e, seen, next).disposing
  {
    match e
    case OpensContinuation => WritingInputsChangesLittle(c, c.activity.run.turn, Everything, seen, next);
    case WritesInputs(take) => WritingInputsChangesLittle(c, c.activity.run.turn, take, seen, next);
    case Fails => WritingInputsChangesLittle(c, c.activity.run.turn, AllButSteers, seen, next);
    case RecordsStop => ARecordedStopEndsEachCall(c, c.activity.run.cancel.value, seen, next);
    case StartsNext => StartingNextDisposesNothing(c, seen, next);
    case _ =>
  }

  lemma {:induction false} OnlyADisposeDisposes(c: Core, e: Event, seen: set<nat>, next: nat)
    requires Sound(c) && Enabled(c, e) && !c.disposing && !e.Disposes?
    ensures !Next(c, e, seen, next).disposing
  {
    if Admits(e) || e.Steers? {
      AnAdmissionDisposesNothing(c, e, seen, next);
    } else if e.SendsAgentMessage? || e.Reports? || e.ReleasesInput? || e.PassesFailure? {
      AnArrivalDisposesNothing(c, e, seen, next);
    } else if !IsFromOutside(e) {
      AStepOfTheWorkerDisposesNothing(c, e, seen, next);
    }
  }

  // Runs.

  predicate ReordersNothing(run: seq<Occurrence>) {
    forall k :: 0 <= k < |run| ==> !Reorders(run[k].event)
  }

  /** The messages a run queues, in order. */
  ghost function AllQueued(c: Core, run: seq<Occurrence>): seq<Pending>
    requires Sound(c) && Occurs(c, run)
    decreases |run|
  {
    if run == [] then []
    else
      EveryStepIsSound(c, run[0].event, run[0].seen, run[0].next);
      QueuedBy(c, run[0].event) + AllQueued(Next(c, run[0].event, run[0].seen, run[0].next), run[1..])
  }

  function TakenBy(c: Core, e: Event): seq<Pending> {
    if TakesTheMessage(c, e) then [Front(c)] else []
  }

  /** The messages a run takes, in order. */
  ghost function AllTaken(c: Core, run: seq<Occurrence>): seq<Pending>
    requires Sound(c) && Occurs(c, run)
    decreases |run|
  {
    if run == [] then []
    else
      EveryStepIsSound(c, run[0].event, run[0].seen, run[0].next);
      TakenBy(c, run[0].event)
      + AllTaken(Next(c, run[0].event, run[0].seen, run[0].next), run[1..])
  }

  /** Those of the messages taken that were queued. */
  function FromTheQueue(taken: seq<Pending>, steers: seq<bool>): seq<Pending>
    requires |steers| == |taken|
  {
    if taken == [] then []
    else (if steers[0] then [] else [taken[0]]) + FromTheQueue(taken[1..], steers[1..])
  }

  lemma {:induction false} TakingOneMore(first: seq<Pending>, steer: bool, taken: seq<Pending>, steers: seq<bool>)
    requires |first| <= 1 && |steers| == |taken|
    ensures var all := if first == [] then steers else [steer] + steers;
            && |all| == |first + taken|
            && FromTheQueue(first + taken, all) == (if steer then [] else first) + FromTheQueue(taken, steers)
  {
    if first == [] {
      assert first + taken == taken;
    } else {
      assert (first + taken)[1..] == taken && ([steer] + steers)[1..] == steers;
    }
  }

  /** Over every run in which the user does not reorder the queue or end the session, messages are taken in the
      order they were queued; only steers that opened a turn of their own come between them. */
  lemma {:induction false} EveryRunTakesMessagesInOrder(c: Core, run: seq<Occurrence>, line: Line)
    returns (steers: seq<bool>, rest: Line)
    requires Sound(c) && Occurs(c, run) && !c.disposing && ReordersNothing(run) && IsLineOf(c, line)
    ensures IsLineOf(After(c, run), rest) && |steers| == |AllTaken(c, run)|
    ensures FromTheQueue(AllTaken(c, run), steers) + rest.queued == line.queued + AllQueued(c, run)
    decreases |run|
  {
    steers, rest := [], line;
    if run != [] {
      var (e, seen, next) := (run[0].event, run[0].seen, run[0].next);
      var after, left := AStepMovesTheLine(c, e, seen, next, line);
      EveryStepIsSound(c, e, seen, next);
      OnlyADisposeDisposes(c, e, seen, next);
      var following := Next(c, e, seen, next);
      var later, end := EveryRunTakesMessagesInOrder(following, run[1..], after);
      TakingOneMore(TakenBy(c, e), line.steer.Some?, AllTaken(following, run[1..]), later);
      steers, rest := if TakesTheMessage(c, e) then [line.steer.Some?] + later else later, end;
      JoinedInOrder(left, FromTheQueue(AllTaken(following, run[1..]), later), end.queued, after.queued, line.queued,
                    QueuedBy(c, e), AllQueued(following, run[1..]));
    }
  }

  lemma {:induction false} JoinedInOrder(
      left: seq<Pending>, later: seq<Pending>, end: seq<Pending>, after: seq<Pending>, before: seq<Pending>,
      queued: seq<Pending>, queuedLater: seq<Pending>)
    requires left + after == before + queued && later + end == after + queuedLater
    ensures (left + later) + end == before + (queued + queuedLater)
  {
    assert (left + later) + end == left + (later + end);
    assert left + (after + queuedLater) == (left + after) + queuedLater;
    assert (before + queued) + queuedLater == before + (queued + queuedLater);
  }

  /** A session with nothing to take has an empty line. */
  lemma {:induction false} AnIdleSessionsLineIsEmpty(c: Core)
    requires Sound(c) && c.activity.Idle?
    ensures IsLineOf(c, Line(None, []))
  {
  }

  // What the user reorders.

  /** The first message of that id in the queue is at `at`. */
  ghost predicate IsQueuedAt(pending: seq<Pending>, id: TurnId, at: nat) {
    && at < |pending| && pending[at].kind.Send? && pending[at].turn == id
    && forall k :: 0 <= k < at ==> !(pending[k].kind.Send? && pending[k].turn == id)
  }

  lemma {:induction false} OthersOfBoth(a: seq<Pending>, b: seq<Pending>)
    ensures Others(a + b) == Others(a) + Others(b)
  {
    if b == [] {
      assert a + b == a;
    } else {
      assert (a + b)[..|a + b| - 1] == a + b[..|b| - 1];
      OthersOfBoth(a, b[..|b| - 1]);
    }
  }

  lemma {:induction false} NoSendsAmongTheOthers(pending: seq<Pending>)
    requires forall k :: 0 <= k < |pending| ==> !pending[k].kind.Send?
    ensures Sends(pending) == [] && Others(pending) == pending
  {
    if pending != [] {
      NoSendsAmongTheOthers(pending[..|pending| - 1]);
      assert pending == pending[..|pending| - 1] + [pending[|pending| - 1]];
    }
  }

  lemma {:induction false} SplitByOne(before: seq<Pending>, one: Pending, after: seq<Pending>)
    ensures Sends(before + [one] + after) == Sends(before) + (if one.kind.Send? then [one] else []) + Sends(after)
    ensures Others(before + [one] + after) == Others(before) + (if one.kind.Send? then [] else [one]) + Others(after)
  {
    SendsOfBoth(before + [one], after);
    SendsOfOneMore(before, one);
    OthersOfBoth(before + [one], after);
    OthersOfBoth(before, [one]);
    assert [one][..0] == [];
  }

  lemma {:induction false} AMessageInserted(rest: seq<Pending>, message: Pending)
    requires message.kind.Send?
    ensures var front := QueuedAt(rest, None);
            var after := rest[..front] + [message] + rest[front..];
            Sends(after) == [message] + Sends(rest) && Others(after) == Others(rest)
  {
    var front := QueuedAt(rest, None);
    var (before, behind) := (rest[..front], rest[front..]);
    assert rest == before + behind;
    NoSendsAmongTheOthers(before);
    SendsOfBoth(before, behind);
    OthersOfBoth(before, behind);
    SplitByOne(before, message, behind);
    assert Sends(before) == [] && [] + [message] == [message] && [] + Sends(behind) == Sends(behind);
    assert Others(before) + [] == Others(before);
  }

  lemma {:induction false} AMessageIsDequeued(c: Core, id: TurnId, at: nat)
    requires !c.disposing && IsQueuedAt(c.pending, id, at)
    ensures QueuedAt(c.pending, Some(id)) == at
    ensures Dequeued(c, id).pending == c.pending[..at] + c.pending[at + 1..]
  {
  }

  lemma {:induction false} AMessageIsSentNext(c: Core, id: TurnId, at: nat)
    requires !c.disposing && IsQueuedAt(c.pending, id, at)
    ensures var rest := c.pending[..at] + c.pending[at + 1..];
            Sends(SentNext(c, id).pending) == [c.pending[at]] + Sends(rest) && Others(SentNext(c, id).pending) == Others(rest)
  {
    AMessageIsDequeued(c, id, at);
    AMessageInserted(c.pending[..at] + c.pending[at + 1..], c.pending[at]);
  }

  lemma {:induction false} TheQueueWithoutOne(pending: seq<Pending>, at: nat)
    requires at < |pending| && pending[at].kind.Send?
    ensures var (before, after) := (Sends(pending[..at]), Sends(pending[at + 1..]));
            && Sends(pending) == before + [pending[at]] + after
            && Sends(pending[..at] + pending[at + 1..]) == before + after
            && Others(pending[..at] + pending[at + 1..]) == Others(pending)
  {
    var (before, after) := (pending[..at], pending[at + 1..]);
    assert pending == before + [pending[at]] + after;
    SplitByOne(before, pending[at], after);
    SendsOfBoth(before, after);
    OthersOfBoth(before, after);
    assert Others(before) + [] == Others(before);
  }

  /** A message sent next is ahead of every other message; a dequeued one is gone. Either way the other messages and
      the other actions keep their order. */
  lemma {:induction false} TheUserMovesOneMessage(c: Core, id: TurnId, at: nat)
    requires !c.disposing && IsQueuedAt(c.pending, id, at)
    ensures var message := c.pending[at];
            var before, after := Sends(c.pending[..at]), Sends(c.pending[at + 1..]);
            && Sends(c.pending) == before + [message] + after
            && Sends(SentNext(c, id).pending) == [message] + (before + after)
            && Sends(Dequeued(c, id).pending) == before + after
            && Others(SentNext(c, id).pending) == Others(Dequeued(c, id).pending) == Others(c.pending)
  {
    TheQueueWithoutOne(c.pending, at);
    AMessageIsDequeued(c, id, at);
    AMessageIsSentNext(c, id, at);
  }
}
