/**
 The store's node as it is changed in place (crates/agent-store/src/testing.rs): a save, a switch, and
 the rows a new node can start with.
 */
module StoredNodes {
  import opened Wrappers
  import opened Blocks
  import opened Versions
  import opened TreeStore
  import opened TreeBranches
  import opened TreeSwitch

  /** The rows a node that starts with a prefix begins with: the prefix's blocks in a chain of their
      own, standing in for nothing. */
  function CopiedRows(rows: seq<Row>, chain: seq<nat>): (copy: seq<Row>)
    requires forall k :: 0 <= k < |chain| ==> chain[k] < |rows|
    ensures |copy| == |chain|
  {
    seq(|chain|, k requires 0 <= k < |chain| =>
      Row(rows[chain[k]].block, if k == 0 then None else Some(k - 1), None))
  }

  /** The rows `prefix` names, or the refusal of one whose length is not its chain's. */
  function Prefix(rows: seq<Row>, leaf: nat, length: nat): Result<seq<Row>, StoreError>
    requires Rooted(rows) && leaf < |rows|
  {
    var chain := Tail(rows, leaf, None);
    if |chain| != length then Err(PrefixLength) else Ok(CopiedRows(rows, chain))
  }

  function Greatest(s: seq<nat>): (greatest: nat)
    requires s != []
    ensures greatest in s && forall x :: x in s ==> x <= greatest
  {
    if |s| == 1 then s[0]
    else
      var rest := Greatest(s[1..]);
      assert forall x :: x in s ==> x == s[0] || x in s[1..];
      if s[0] < rest then rest else s[0]
  }

  lemma {:induction false} SwitchedTo(
      n: Node, position: nat, version: nat, parent: Option<nat>, from: nat, members: seq<nat>, leaf: nat)
    requires Shape(n) && position < |n.path| && parent == ShownPlace(n, position)
    requires PlaceAt(n, parent) == Some(from) && Numbered(Siblings(n.rows, parent))
    requires VersionRows(Siblings(n.rows, parent), version) == Some(members)
    requires Latest(n.rows, members, |n.rows|) == Some(leaf)
    ensures from <= |n.path|
    ensures Switched(n, position, version)
            == Ok((Node(n.rows, n.path[..from] + Tail(n.rows, leaf, parent), None), from))
  {
  }

  lemma {:induction false} ATailUnfolds(rows: seq<Row>, tail: seq<nat>, parent: Option<nat>)
    requires Rooted(rows) && |tail| > 0 && tail[0] < |rows|
    requires rows[tail[0]].follows.Some? && rows[tail[0]].follows != parent
    ensures var follows := rows[tail[0]].follows.value;
            var longer := [follows] + tail;
            Tail(rows, tail[0], parent) + tail[1..] == Tail(rows, follows, parent) + longer[1..]
  {
    var follows := rows[tail[0]].follows.value;
    assert ([follows] + tail)[1..] == tail == [tail[0]] + tail[1..];
    assert Tail(rows, tail[0], parent) == Tail(rows, follows, parent) + [tail[0]];
  }

  class StoredNode {
    var rows: seq<Row>
    var path: seq<nat>
    var cut: Option<nat>

    function State(): Node
      reads this
    {
      Node(rows, path, cut)
    }

    /** A node with no block. */
    constructor ()
      ensures State() == Node([], [], None)
    {
      rows, path, cut := [], [], None;
    }

    /** A node whose path starts with copied rows. */
    constructor After(copied: seq<Row>)
      ensures State() == Node(copied, seq(|copied|, k => k), None)
    {
      rows, path, cut := copied, seq(|copied|, k => k), None;
    }

    method CarriedFrom(row: nat) returns (origin: nat)
      requires Shape(State()) && row < |rows|
      ensures origin == Carried(rows, row)
    {
      origin := row;
      while rows[origin].inPlaceOf.Some? && rows[rows[origin].inPlaceOf.value].follows != rows[origin].follows
        invariant origin < |rows| && Carried(rows, origin) == Carried(rows, row)
        decreases origin
      {
        origin := rows[origin].inPlaceOf.value;
      }
    }

    /** Takes the rows from the cut on off the path, by their block's id; a version stands in for
        none of them. */
    method CutPath(u: Update) returns (at: nat, moved: map<BlockId, nat>)
      requires Shape(State())
      modifies this
      ensures at == CutAt(old(State()), u) && Saving(State(), moved) == Begin(old(State()), u)
    {
      at := CutAt(State(), u);
      moved := map[];
      assert at == |path| ==> path[at..] == [] && path[..at] == path;
      if at < |path| {
        cut := Some(path[at]);
        moved := RowsById(rows, path[at..]);
        path := path[..at];
      }
      if u.version {
        cut := None;
      }
    }

    /** Appends `block` as a new row, in place of the row it was carried from, or else of the row the
        cut took off first, and returns the rows carried by none yet. */
    method AppendBlock(block: Block, moved: map<BlockId, nat>) returns (left: map<BlockId, nat>)
      requires SavingShape(Saving(State(), moved))
      modifies this
      ensures Saving(State(), left) == Append(Saving(old(State()), moved), block)
    {
      var follows := Parent(path, |path|);
      var replaced: Option<nat> := None;
      left := moved;
      if block.id in moved {
        replaced := Some(moved[block.id]);
        left := moved - {block.id};
        cut := None;
      } else {
        if cut.Some? && rows[cut.value].follows == follows {
          replaced := cut;
        }
        cut := None;
        assert left == moved - {block.id};
      }
      rows := rows + [Row(block, follows, replaced)];
      path := path + [|rows| - 1];
    }

    method ApplySave(u: Update) returns (refusal: Option<StoreError>)
      requires Shape(State())
      modifies this
      ensures (State(), refusal) == Saved(old(State()), u)
    {
      BeginShape(State(), u);
      ghost var begun := Begin(State(), u);
      var at, moved := CutPath(u);
      assert u.changed[0..] == u.changed;
      var i := 0;
      while i < |u.changed|
        invariant i <= |u.changed| && at <= |path|
        invariant SavingShape(Saving(State(), moved))
        invariant Write(Saving(State(), moved), at, u.changed[i..]) == Write(begun, at, u.changed)
      {
        var change := u.changed[i];
        assert u.changed[i..][0] == change && u.changed[i..][1..] == u.changed[i + 1..];
        if change.position < at {
          MarkShape(Saving(State(), moved), change.position, change.block);
          var row := path[change.position];
          rows := rows[row := rows[row].(block := change.block)];
        } else if change.position != |path| {
          return Some(SkipsPosition);
        } else {
          AppendShape(Saving(State(), moved), change.block);
          moved := AppendBlock(change.block, moved);
        }
        i := i + 1;
      }
      refusal := if |path| != u.blockCount then Some(LeavesPathShort) else None;
    }

    /** The latest of the rows below `members`, found in one pass over the rows in order. */
    method LatestBelow(members: seq<nat>) returns (latest: nat)
      requires Rooted(rows) && members != []
      requires forall m :: m in members ==> m < |rows|
      ensures Latest(rows, members, |rows|) == Some(latest)
    {
      var below: seq<nat> := members;
      var number := 0;
      while number < |rows|
        invariant number <= |rows| && below != []
        invariant forall row: nat :: row in below ==> row < |rows| && IsBelow(rows, members, row)
        invariant forall row :: 0 <= row < |rows| && IsBelow(rows, members, row) && (row < number || row in members) ==>
                                  row in below
      {
        var follows := rows[number].follows;
        if follows.Some? && follows.value in below && number !in below {
          below := below + [number];
        }
        number := number + 1;
      }
      latest := Greatest(below);
    }

    /** The rows from the one after `parent` to `leaf`, found by walking back from the leaf. */
    method TailTo(leaf: nat, parent: Option<nat>) returns (tail: seq<nat>)
      requires Rooted(rows) && leaf < |rows|
      ensures tail == Tail(rows, leaf, parent)
    {
      tail := [leaf];
      while rows[tail[0]].follows.Some? && rows[tail[0]].follows != parent
        invariant |tail| > 0 && tail[0] < |rows|
        invariant Tail(rows, leaf, parent) == Tail(rows, tail[0], parent) + tail[1..]
        decreases tail[0]
      {
        var follows := rows[tail[0]].follows.value;
        ATailUnfolds(rows, tail, parent);
        tail := [follows] + tail;
      }
    }

    method PlaceShown(position: nat) returns (place: Option<nat>)
      requires Shape(State()) && position < |path|
      ensures place == ShownPlace(State(), position)
    {
      place := Parent(path, position);
      SiblingsAreNumbered(rows, place);
      if VersionsOf(Siblings(rows, place), path[position]).None? {
        var origin := CarriedFrom(path[position]);
        place := rows[origin].follows;
      }
    }

    method Switch(position: nat, version: nat) returns (r: Result<nat, StoreError>)
      requires Shape(State())
      modifies this
      ensures match Switched(old(State()), position, version)
              case Ok(switched) => State() == switched.0 && r == Ok(switched.1)
              case Err(error) => State() == old(State()) && r == Err(error)
    {
      if position >= |path| {
        return Err(PathEndsBefore);
      }
      var parent := PlaceShown(position);
      SiblingsAreNumbered(rows, parent);
      var from := PlaceAt(State(), parent);
      if from.None? {
        return Err(PathLeavesPlace);
      }
      var members := VersionRows(Siblings(rows, parent), version);
      if members.None? {
        return Err(NoSuchVersion);
      }
      VersionRowsFollowThePlace(rows, parent, version);
      var leaf := LatestBelow(members.value);
      var tail := TailTo(leaf, parent);
      SwitchedTo(State(), position, version, parent, from.value, members.value, leaf);
      path := path[..from.value] + tail;
      cut := None;
      r := Ok(from.value);
    }

    /** The rows a new node starts with, found by walking back from the prefix's leaf. */
    method PrefixRows(leaf: nat, length: nat) returns (r: Result<seq<Row>, StoreError>)
      requires Shape(State()) && leaf < |rows|
      ensures r == Prefix(rows, leaf, length)
    {
      var chain := TailTo(leaf, None);
      if |chain| != length {
        return Err(PrefixLength);
      }
      r := Ok(CopiedRows(rows, chain));
    }
  }
}
