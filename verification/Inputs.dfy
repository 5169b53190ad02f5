/**
 A session's waiting input (crates/agent-session/src/input.rs): human steers, agent messages and
 command reports, in the order they arrived.
 */
module Inputs {
  import opened Wrappers
  import opened Blocks

  type MessageId = nat

  datatype Input =
    | Steer(id: MessageId, content: nat)
    | Report(number: nat, event: ReportEvent, opensTurn: bool)
    | Agent(id: MessageId, content: nat)

  /** Which inputs a boundary writes. */
  datatype Take = Everything | AgentMessages | AllButSteers

  predicate IsTaken(take: Take, input: Input) {
    match take
    case Everything => true
    case AgentMessages => input.Agent?
    case AllButSteers => !input.Steer?
  }

  /** The inputs of those at hand that a boundary writes, and the others, each in arrival order. */
  function Taken(entries: seq<Input>, take: Take): (taken: seq<Input>)
    ensures forall k :: 0 <= k < |taken| ==> IsTaken(take, taken[k])
    ensures |taken| <= |entries|
  {
    if entries == [] then []
    else
      var (before, last) := (Taken(entries[..|entries| - 1], take), entries[|entries| - 1]);
      if IsTaken(take, last) then before + [last] else before
  }

  function Left(entries: seq<Input>, take: Take): (left: seq<Input>)
    ensures forall k :: 0 <= k < |left| ==> !IsTaken(take, left[k])
    ensures |left| + |Taken(entries, take)| == |entries|
  {
    if entries == [] then []
    else
      var (before, last) := (Left(entries[..|entries| - 1], take), entries[|entries| - 1]);
      if IsTaken(take, last) then before else before + [last]
  }

  /** The inputs but for the reports whose ends were seen. */
  function Unseen(entries: seq<Input>, seen: set<nat>): (r: seq<Input>)
    ensures |r| <= |entries|
    ensures forall input :: input in r ==> input in entries && !(input.Report? && input.number in seen)
  {
    if entries == [] then []
    else
      var (before, last) := (Unseen(entries[..|entries| - 1], seen), entries[|entries| - 1]);
      if last.Report? && last.number in seen then before else before + [last]
  }

  function Reports(entries: seq<Input>): (reports: seq<Input>)
    ensures forall k :: 0 <= k < |reports| ==> reports[k].Report?
    ensures |reports| <= |entries|
  {
    if entries == [] then []
    else
      var (before, last) := (Reports(entries[..|entries| - 1]), entries[|entries| - 1]);
      if last.Report? then before + [last] else before
  }

  function WithoutReports(entries: seq<Input>): (r: seq<Input>)
    ensures forall k :: 0 <= k < |r| ==> !r[k].Report?
    ensures |r| <= |entries|
  {
    if entries == [] then []
    else
      var (before, last) := (WithoutReports(entries[..|entries| - 1]), entries[|entries| - 1]);
      if last.Report? then before else before + [last]
  }

  /** The position of the first steer, or of the steer `id`; the number of inputs when there is none. */
  function SteerAt(entries: seq<Input>, id: Option<MessageId>): (at: nat)
    ensures at <= |entries|
    ensures at < |entries| ==> entries[at].Steer? && (id.Some? ==> entries[at].id == id.value)
    ensures forall k :: 0 <= k < at ==> !(entries[k].Steer? && (id.Some? ==> entries[k].id == id.value))
  {
    if entries == [] || (entries[0].Steer? && (id.Some? ==> entries[0].id == id.value)) then 0
    else 1 + SteerAt(entries[1..], id)
  }

  predicate HasSteer(entries: seq<Input>) {
    SteerAt(entries, None) < |entries|
  }

  predicate HasAgentInput(entries: seq<Input>) {
    exists k :: 0 <= k < |entries| && entries[k].Agent?
  }

  /** Some waiting report is one that may begin a turn. */
  predicate HasReport(entries: seq<Input>) {
    exists k :: 0 <= k < |entries| && entries[k].Report? && entries[k].opensTurn
  }

  /** Something waits that is work of the node's: a report that opens no turn of its own is none. */
  predicate WorkWaits(entries: seq<Input>) {
    HasAgentInput(entries) || HasReport(entries) || HasSteer(entries)
  }

  function Without(entries: seq<Input>, at: nat): (r: seq<Input>)
    requires at < |entries|
    ensures |r| == |entries| - 1
  {
    entries[..at] + entries[at + 1..]
  }

  /** The waiting inputs and how many arrived, less those withdrawn. */
  datatype Queue = Queue(entries: seq<Input>, arrivals: nat)

  function Added(q: Queue, input: Input): Queue {
    Queue(q.entries + [input], q.arrivals + 1)
  }

  /** The count less `withdrawn`, which stops at zero. */
  function Less(arrivals: nat, withdrawn: nat): nat {
    if arrivals < withdrawn then 0 else arrivals - withdrawn
  }

  function WithoutSteer(q: Queue, id: MessageId): Queue {
    var at := SteerAt(q.entries, Some(id));
    if at < |q.entries| then Queue(Without(q.entries, at), Less(q.arrivals, 1)) else q
  }

  function WithoutSeen(q: Queue, seen: set<nat>): Queue {
    var left := Unseen(q.entries, seen);
    Queue(left, Less(q.arrivals, |q.entries| - |left|))
  }

  // The arrivals are exact: what waits was counted, so nothing withdrawn is counted below zero.

  datatype Happening =
    | Arrives(input: Input)
    | Withdraws(id: MessageId)
    | Sees(seen: set<nat>)
    | Takes(take: Take)
    | TakesReports
    | TakesFirstSteer

  function Happened(q: Queue, h: Happening): Queue {
    match h
    case Arrives(input) => Added(q, input)
    case Withdraws(id) => WithoutSteer(q, id)
    case Sees(seen) => WithoutSeen(q, seen)
    case Takes(take) => q.(entries := Left(q.entries, take))
    case TakesReports => q.(entries := WithoutReports(q.entries))
    case TakesFirstSteer =>
      var at := SteerAt(q.entries, None);
      if at < |q.entries| then q.(entries := Without(q.entries, at)) else q
  }

  function AllHappened(happenings: seq<Happening>): Queue {
    if happenings == [] then Queue([], 0)
    else Happened(AllHappened(happenings[..|happenings| - 1]), happenings[|happenings| - 1])
  }

  /** How many inputs a happening withdrew, unread. */
  function Withdrawn(q: Queue, h: Happening): nat {
    match h
    case Withdraws(_) => |q.entries| - |Happened(q, h).entries|
    case Sees(_) => |q.entries| - |Happened(q, h).entries|
    case _ => 0
  }

  function TimesArrived(happenings: seq<Happening>): nat {
    if happenings == [] then 0
    else TimesArrived(happenings[..|happenings| - 1]) + if happenings[|happenings| - 1].Arrives? then 1 else 0
  }

  function TimesWithdrawn(happenings: seq<Happening>): nat {
    if happenings == [] then 0
    else
      TimesWithdrawn(happenings[..|happenings| - 1])
      + Withdrawn(AllHappened(happenings[..|happenings| - 1]), happenings[|happenings| - 1])
  }

  /** The arrivals a turn reads are those that arrived less those withdrawn, and never fewer than what
      waits: the count never stops short at zero. */
  lemma {:induction false} ArrivalsAreExact(happenings: seq<Happening>)
    ensures var q := AllHappened(happenings);
            && q.arrivals == TimesArrived(happenings) - TimesWithdrawn(happenings)
            && |q.entries| <= q.arrivals
  {
    if happenings != [] {
      ArrivalsAreExact(happenings[..|happenings| - 1]);
    }
  }

  // Which inputs stay and which are taken.

  /** Of the inputs those that `keeps` names are at `at`, ascending, and `kept` holds them in that order. */
  ghost predicate Picks(entries: seq<Input>, kept: seq<Input>, at: seq<nat>, keeps: Input -> bool) {
    && |kept| == |at| && (forall j, k :: 0 <= j < k < |at| ==> at[j] < at[k])
    && (forall k :: 0 <= k < |at| ==> at[k] < |entries| && kept[k] == entries[at[k]])
    && (forall k: nat :: k in at <==> k < |entries| && keeps(entries[k]))
  }

  lemma {:induction false} PickingOneMore(entries: seq<Input>, kept: seq<Input>, at: seq<nat>, keeps: Input -> bool)
    requires entries != [] && Picks(entries[..|entries| - 1], kept, at, keeps)
    ensures var last := entries[|entries| - 1];
            if keeps(last) then Picks(entries, kept + [last], at + [|entries| - 1], keeps) else Picks(entries, kept, at, keeps)
  {
    var before := entries[..|entries| - 1];
    assert forall k :: 0 <= k < |before| ==> before[k] == entries[k];
    assert forall k :: 0 <= k < |at| ==> at[k] in at;
  }

  /** An unseen report stays, and so do the steers and the agents' messages, in the order they arrived. */
  lemma {:induction false} OnlySeenReportsGo(entries: seq<Input>, seen: set<nat>) returns (at: seq<nat>)
    ensures Picks(entries, Unseen(entries, seen), at, (input: Input) => !(input.Report? && input.number in seen))
  {
    at := [];
    if entries != [] {
      at := OnlySeenReportsGo(entries[..|entries| - 1], seen);
      var last := entries[|entries| - 1];
      PickingOneMore(entries, Unseen(entries[..|entries| - 1], seen), at,
                     (input: Input) => !(input.Report? && input.number in seen));
      if !(last.Report? && last.number in seen) { at := at + [|entries| - 1]; }
    }
  }

  /** An agent's message is written at every boundary, a report at all but the one after a response's stream, and a
      steer only before a request. */
  predicate IsWritten(take: Take, input: Input) {
    match input
    case Agent(_, _) => true
    case Report(_, _, _) => take != AgentMessages
    case Steer(_, _) => take == Everything
  }

  /** A boundary writes exactly those, and the others stay, each in the order they arrived. */
  lemma {:induction false} ABoundaryTakesExactlyThose(
      entries: seq<Input>, take: Take) returns (at: seq<nat>, others: seq<nat>)
    ensures Picks(entries, Taken(entries, take), at, (input: Input) => IsWritten(take, input))
    ensures Picks(entries, Left(entries, take), others, (input: Input) => !IsWritten(take, input))
  {
    at, others := [], [];
    if entries != [] {
      var before := entries[..|entries| - 1];
      at, others := ABoundaryTakesExactlyThose(before, take);
      PickingOneMore(entries, Taken(before, take), at, (input: Input) => IsWritten(take, input));
      PickingOneMore(entries, Left(before, take), others, (input: Input) => !IsWritten(take, input));
      if IsWritten(take, entries[|entries| - 1]) {
        at := at + [|entries| - 1];
      } else {
        others := others + [|entries| - 1];
      }
    }
  }

  /** A continuation's opening block takes every report, and no other input. */
  lemma {:induction false} AContinuationTakesTheReports(entries: seq<Input>) returns (at: seq<nat>, others: seq<nat>)
    ensures Picks(entries, Reports(entries), at, (input: Input) => input.Report?)
    ensures Picks(entries, WithoutReports(entries), others, (input: Input) => !input.Report?)
  {
    at, others := [], [];
    if entries != [] {
      var before := entries[..|entries| - 1];
      at, others := AContinuationTakesTheReports(before);
      PickingOneMore(entries, Reports(before), at, (input: Input) => input.Report?);
      PickingOneMore(entries, WithoutReports(before), others, (input: Input) => !input.Report?);
      if entries[|entries| - 1].Report? {
        at := at + [|entries| - 1];
      } else {
        others := others + [|entries| - 1];
      }
    }
  }

  /** The inputs that stay once the reports whose ends were seen are withdrawn, and how many those are. */
  method SplitReports(entries: seq<Input>, seen: set<nat>) returns (kept: seq<Input>, withdrawn: nat)
    ensures kept == Unseen(entries, seen) && withdrawn + |kept| == |entries|
  {
    kept, withdrawn := [], 0;
    for k := 0 to |entries|
      invariant kept == Unseen(entries[..k], seen) && withdrawn + |kept| == k
    {
      assert entries[..k + 1][..k] == entries[..k];
      if entries[k].Report? && entries[k].number in seen {
        withdrawn := withdrawn + 1;
      } else {
        kept := kept + [entries[k]];
      }
    }
    assert entries[..|entries|] == entries;
  }

  class InputQueue {
    var entries: seq<Input>
    var arrivals: nat

    function Now(): Queue
      reads this
    {
      Queue(entries, arrivals)
    }

    constructor ()
      ensures Now() == Queue([], 0)
    {
      entries, arrivals := [], 0;
    }

    method Add(input: Input)
      modifies this
      ensures Now() == Added(old(Now()), input)
    {
      entries := entries + [input];
      arrivals := arrivals + 1;
    }

    /** Withdraws the pending steer `id`; false when none is pending. */
    method CancelSteer(id: MessageId) returns (cancelled: bool)
      modifies this
      ensures Now() == WithoutSteer(old(Now()), id)
      ensures cancelled == (SteerAt(old(entries), Some(id)) < |old(entries)|)
    {
      var at := SteerAt(entries, Some(id));
      if at == |entries| {
        return false;
      }
      entries := Without(entries, at);
      arrivals := Less(arrivals, 1);
      cancelled := true;
    }

    /** Parts the inputs into those `take` names, handed out as they arrived, and those that stay. */
    method TakeAll(take: Take) returns (taken: seq<Input>)
      modifies this
      ensures taken == Taken(old(entries), take) && Now() == Happened(old(Now()), Takes(take))
    {
      taken := [];
      var kept: seq<Input> := [];
      for k := 0 to |entries|
        invariant Now() == old(Now())
        invariant taken == Taken(entries[..k], take) && kept == Left(entries[..k], take)
      {
        assert entries[..k + 1][..k] == entries[..k];
        if IsTaken(take, entries[k]) {
          taken := taken + [entries[k]];
        } else {
          kept := kept + [entries[k]];
        }
      }
      assert entries[..|entries|] == entries;
      entries := kept;
    }

    /** Withdraws the waiting reports whose ends were seen: they cause no request. */
    method RetainReports(seen: set<nat>)
      modifies this
      ensures Now() == WithoutSeen(old(Now()), seen)
    {
      var kept, withdrawn := SplitReports(entries, seen);
      entries := kept;
      arrivals := Less(arrivals, withdrawn);
    }

    /** Hands out every report, for the block that begins a continuation. */
    method TakeReports() returns (reports: seq<Input>)
      modifies this
      ensures reports == Reports(old(entries)) && Now() == Happened(old(Now()), TakesReports)
    {
      reports := [];
      var kept: seq<Input> := [];
      for k := 0 to |entries|
        invariant Now() == old(Now())
        invariant reports == Reports(entries[..k]) && kept == WithoutReports(entries[..k])
      {
        assert entries[..k + 1][..k] == entries[..k];
        if entries[k].Report? {
          reports := reports + [entries[k]];
        } else {
          kept := kept + [entries[k]];
        }
      }
      assert entries[..|entries|] == entries;
      entries := kept;
    }

    /** Hands out the oldest waiting steer, which no boundary has written. */
    method TakeFirstSteer() returns (steer: Option<Input>)
      modifies this
      ensures Now() == Happened(old(Now()), TakesFirstSteer)
      ensures var at := SteerAt(old(entries), None);
              steer == if at < |old(entries)| then Some(old(entries)[at]) else None
    {
      var at := SteerAt(entries, None);
      if at == |entries| {
        return None;
      }
      steer := Some(entries[at]);
      entries := Without(entries, at);
    }
  }
}
