/**
 A switch of versions (crates/agent-store/src/testing.rs): the latest leaf of a version at a place
 becomes the current leaf.
 */
module TreeSwitch {
  import opened Wrappers
  import opened Blocks
  import opened Versions
  import opened TreeStore
  import opened TreeBranches

  // The place a position shows.

  /** The oldest row of the same block: a row in place of one at another place continues that row's block
      on a branch of its own. */
  function Carried(rows: seq<Row>, row: nat): (origin: nat)
    requires Rooted(rows) && row < |rows|
    ensures origin <= row
    decreases row
  {
    var replaced := rows[row].inPlaceOf;
    if replaced.Some? && rows[replaced.value].follows != rows[row].follows then Carried(rows, replaced.value) else row
  }

  /** Which place's versions a reader sees at `position`, by its parent: where the path stands when that
      place has versions, and otherwise where its block first stood. */
  function ShownPlace(n: Node, position: nat): Option<nat>
    requires Shape(n) && position < |n.path|
  {
    var own := Parent(n.path, position);
    SiblingsAreNumbered(n.rows, own);
    if VersionsOf(Siblings(n.rows, own), n.path[position]).Some? then own
    else n.rows[Carried(n.rows, n.path[position])].follows
  }

  // The rows below a version, and the path to one of them.

  /** Whether `row` is one of `members` or follows, at any distance, one of them. */
  predicate IsBelow(rows: seq<Row>, members: seq<nat>, row: nat)
    requires Rooted(rows) && row < |rows|
    decreases row
  {
    row in members || (rows[row].follows.Some? && IsBelow(rows, members, rows[row].follows.value))
  }

  /** The highest-numbered row under `n` that is below `members`. */
  function Latest(rows: seq<Row>, members: seq<nat>, n: nat): (latest: Option<nat>)
    requires Rooted(rows) && n <= |rows|
    ensures latest.Some? ==> latest.value < n && IsBelow(rows, members, latest.value)
    ensures forall row :: 0 <= row < n && IsBelow(rows, members, row) ==> latest.Some? && row <= latest.value
  {
    if n == 0 then None
    else if IsBelow(rows, members, n - 1) then Some(n - 1)
    else Latest(rows, members, n - 1)
  }

  /** The rows from the one after `parent` to `row`, each following the one before it. */
  function Tail(rows: seq<Row>, row: nat, parent: Option<nat>): (tail: seq<nat>)
    requires Rooted(rows) && row < |rows|
    ensures |tail| > 0 && tail[|tail| - 1] == row
    ensures forall k :: 0 <= k < |tail| ==> tail[k] <= row
    decreases row
  {
    if rows[row].follows.Some? && rows[row].follows != parent
    then Tail(rows, rows[row].follows.value, parent) + [row]
    else [row]
  }

  /** Where on the path the place after `parent` is. */
  function PlaceAt(n: Node, parent: Option<nat>): Option<nat> {
    match parent
    case None => Some(0)
    case Some(row) =>
      var at := IndexOf(n.path, row);
      if at < |n.path| then Some(at + 1) else None
  }

  /** What a switch to the `version`th version at `position` makes of the node, and where the path
      changed. */
  function Switched(n: Node, position: nat, version: nat): Result<(Node, nat), StoreError>
    requires Shape(n)
  {
    if position >= |n.path| then Err(PathEndsBefore)
    else
      var parent := ShownPlace(n, position);
      SiblingsAreNumbered(n.rows, parent);
      match PlaceAt(n, parent)
      case None => Err(PathLeavesPlace)
      case Some(from) =>
        match VersionRows(Siblings(n.rows, parent), version)
        case None => Err(NoSuchVersion)
        case Some(members) =>
          match Latest(n.rows, members, |n.rows|)
          case None => Err(NoSuchVersion)
          case Some(leaf) => Ok((Node(n.rows, n.path[..from] + Tail(n.rows, leaf, parent), None), from))
  }

  // What a switch promises.

  lemma {:induction false} TailIsAChain(rows: seq<Row>, row: nat, parent: Option<nat>, k: nat)
    requires Rooted(rows) && row < |rows| && 0 < k < |Tail(rows, row, parent)|
    ensures rows[Tail(rows, row, parent)[k]].follows == Some(Tail(rows, row, parent)[k - 1])
    decreases row
  {
    var before := Tail(rows, rows[row].follows.value, parent);
    if k < |before| {
      TailIsAChain(rows, rows[row].follows.value, parent, k);
    }
  }

  /** Rows at one place: each follows `parent`. */
  ghost predicate At(rows: seq<Row>, members: seq<nat>, parent: Option<nat>) {
    forall m :: m in members ==> m < |rows| && rows[m].follows == parent
  }

  lemma {:induction false} BelowIsNewer(rows: seq<Row>, members: seq<nat>, parent: Option<nat>, row: nat)
    requires Rooted(rows) && row < |rows| && At(rows, members, parent) && IsBelow(rows, members, row)
    ensures Before(parent, row)
    decreases row
  {
    if row !in members {
      BelowIsNewer(rows, members, parent, rows[row].follows.value);
    }
  }

  lemma {:induction false} TailStartsInTheVersion(rows: seq<Row>, members: seq<nat>, parent: Option<nat>, row: nat)
    requires Rooted(rows) && row < |rows| && At(rows, members, parent) && IsBelow(rows, members, row)
    ensures Tail(rows, row, parent)[0] in members
    ensures rows[Tail(rows, row, parent)[0]].follows == parent
    decreases row
  {
    if row !in members {
      BelowIsNewer(rows, members, parent, rows[row].follows.value);
      TailStartsInTheVersion(rows, members, parent, rows[row].follows.value);
    }
  }

  lemma {:induction false} VersionRowsFollowThePlace(rows: seq<Row>, parent: Option<nat>, version: nat)
    requires Rooted(rows)
    ensures Numbered(Siblings(rows, parent))
    ensures var members := VersionRows(Siblings(rows, parent), version);
            members.Some? ==> At(rows, members.value, parent) && members.value != []
  {
    SiblingsAreNumbered(rows, parent);
    VersionsPartitionThePlace(Siblings(rows, parent));
  }

  /** A switch fails only where the path does not reach, where the place is off the path, or where the
      place holds no such version: a version always has a leaf. */
  lemma {:induction false} AVersionHasALeaf(rows: seq<Row>, parent: Option<nat>, version: nat)
    requires Rooted(rows) && Numbered(Siblings(rows, parent)) && VersionRows(Siblings(rows, parent), version).Some?
    ensures Latest(rows, VersionRows(Siblings(rows, parent), version).value, |rows|).Some?
  {
    VersionRowsFollowThePlace(rows, parent, version);
    var members := VersionRows(Siblings(rows, parent), version).value;
    assert members[0] in members;
    assert IsBelow(rows, members, members[0]);
  }

  lemma {:induction false} PlaceIsOnThePath(n: Node, parent: Option<nat>)
    requires Shape(n) && PlaceAt(n, parent).Some?
    ensures PlaceAt(n, parent).value <= |n.path| && Parent(n.path, PlaceAt(n, parent).value) == parent
  {
  }

  lemma {:induction false} ASplicedPathIsChained(n: Node, from: nat, leaf: nat)
    requires Shape(n) && from <= |n.path| && leaf < |n.rows|
    requires n.rows[Tail(n.rows, leaf, Parent(n.path, from))[0]].follows == Parent(n.path, from)
    ensures Chained(n.rows, n.path[..from] + Tail(n.rows, leaf, Parent(n.path, from)))
  {
    var tail := Tail(n.rows, leaf, Parent(n.path, from));
    var path := n.path[..from] + tail;
    forall k | 0 <= k < |path| ensures n.rows[path[k]].follows == Parent(path, k) {
      if k < from {
        assert path[k] == n.path[k] && Parent(path, k) == Parent(n.path, k);
        assert n.rows[n.path[k]].follows == Parent(n.path, k);
      } else if k == from {
        assert path[k] == tail[0] && Parent(path, k) == Parent(n.path, from);
      } else {
        TailIsAChain(n.rows, leaf, Parent(n.path, from), k - from);
        assert path[k] == tail[k - from] && path[k - 1] == tail[k - from - 1];
      }
    }
  }

  lemma {:induction false} SwitchKeepsTheShape(n: Node, position: nat, version: nat)
    requires Shape(n) && Switched(n, position, version).Ok?
    ensures Shape(Switched(n, position, version).value.0)
    ensures Switched(n, position, version).value.0.rows == n.rows
  {
    var parent := ShownPlace(n, position);
    PlaceIsOnThePath(n, parent);
    VersionRowsFollowThePlace(n.rows, parent, version);
    var members := VersionRows(Siblings(n.rows, parent), version).value;
    var leaf := Latest(n.rows, members, |n.rows|).value;
    TailStartsInTheVersion(n.rows, members, parent, leaf);
    ASplicedPathIsChained(n, PlaceAt(n, parent).value, leaf);
  }

  lemma {:induction false} ASwitchKeepsThePathBefore(n: Node, position: nat, version: nat)
    requires Shape(n) && Switched(n, position, version).Ok?
    ensures var (after, from) := Switched(n, position, version).value;
            from <= |n.path| && from <= |after.path| && after.path[..from] == n.path[..from]
  {
    PlaceIsOnThePath(n, ShownPlace(n, position));
  }

  /** Whenever a switch succeeds, the path before the place is unchanged, the row at the place is of
      the requested version, and the path ends at the highest-numbered row below that version, which
      no row follows. */
  lemma {:induction false} SwitchLandsOnTheVersionsLatestLeaf(n: Node, position: nat, version: nat)
    requires Shape(n) && Switched(n, position, version).Ok?
    ensures
      var (after, from) := Switched(n, position, version).value;
      var place := Parent(n.path, from);
      var leaf := after.path[|after.path| - 1];
      && place == ShownPlace(n, position)
      && from < |after.path| && after.path[..from] == n.path[..from]
      && Numbered(Siblings(n.rows, place))
      && VersionRows(Siblings(n.rows, place), version).Some?
      && var members := VersionRows(Siblings(n.rows, place), version).value;
      && after.path[from] in members
      && IsBelow(n.rows, members, leaf)
      && (forall row :: 0 <= row < |n.rows| && IsBelow(n.rows, members, row) ==> row <= leaf)
      && (forall row :: 0 <= row < |n.rows| ==> n.rows[row].follows != Some(leaf))
  {
    var parent := ShownPlace(n, position);
    var from := PlaceAt(n, parent).value;
    PlaceIsOnThePath(n, parent);
    VersionRowsFollowThePlace(n.rows, parent, version);
    var members := VersionRows(Siblings(n.rows, parent), version).value;
    var leaf := Latest(n.rows, members, |n.rows|).value;
    TailStartsInTheVersion(n.rows, members, parent, leaf);
    var after := Switched(n, position, version).value.0;
    assert after.path[..from] == n.path[..from];
    assert after.path[|after.path| - 1] == leaf;
    WhatFollowsIsBelow(n.rows, members, leaf);
  }

  lemma {:induction false} WhatFollowsIsBelow(rows: seq<Row>, members: seq<nat>, leaf: nat)
    requires Rooted(rows) && leaf < |rows| && IsBelow(rows, members, leaf)
    ensures forall row :: 0 <= row < |rows| && rows[row].follows == Some(leaf) ==>
              leaf < row && IsBelow(rows, members, row)
  {
  }

  // Switching back.

  /** The path between two of its positions is the tail from the one to the other. */
  lemma {:induction false} APathIsItsTail(n: Node, from: nat, last: nat)
    requires Shape(n) && from <= last < |n.path|
    ensures Tail(n.rows, n.path[last], Parent(n.path, from)) == n.path[from..last + 1]
  {
    assert n.rows[n.path[last]].follows == Parent(n.path, last);
    if from == last {
      assert n.path[from..last + 1] == [n.path[last]];
    } else {
      if from > 0 {
        PathAscends(n, from - 1, last - 1);
      }
      APathIsItsTail(n, from, last - 1);
      assert n.path[from..last] + [n.path[last]] == n.path[from..last + 1];
    }
  }

  lemma {:induction false} PlaceOfAPosition(n: Node, from: nat)
    requires Shape(n) && from <= |n.path|
    ensures PlaceAt(n, Parent(n.path, from)) == Some(from)
  {
    if from > 0 {
      var at := IndexOf(n.path, n.path[from - 1]);
      if at < from - 1 { PathAscends(n, at, from - 1); } else if from - 1 < at { PathAscends(n, from - 1, at); }
    }
  }

  /** Two versions at a row's own place make the row show that place. */
  lemma {:induction false} AMemberOfManyShowsItsOwnPlace(n: Node, position: nat, place: seq<Sibling>)
    requires Shape(n) && position < |n.path| && place == Siblings(n.rows, Parent(n.path, position))
    requires Numbered(place) && 2 <= |Starts(place)| <= U32_MAX
    ensures ShownPlace(n, position) == Parent(n.path, position)
  {
    assert n.rows[n.path[position]].follows == Parent(n.path, position);
    SiblingsAreNumbered(n.rows, Parent(n.path, position));
    StartIsAmongTheStarts(place, n.path[position]);
  }

  /** A switch from a place of several versions to the one `leaf` is the latest row of. */
  lemma {:induction false} ASwitchAmongVersions(n: Node, from: nat, version: nat)
    requires Shape(n) && from < |n.path|
    requires var place := Siblings(n.rows, Parent(n.path, from));
             && Numbered(place) && 2 <= |Starts(place)| <= U32_MAX && VersionRows(place, version).Some?
    ensures var members := VersionRows(Siblings(n.rows, Parent(n.path, from)), version).value;
            && Latest(n.rows, members, |n.rows|).Some?
            && Switched(n, from, version)
               == Ok((Node(n.rows,
                           n.path[..from] + Tail(n.rows, Latest(n.rows, members, |n.rows|).value, Parent(n.path, from)),
                           None), from))
  {
    AMemberOfManyShowsItsOwnPlace(n, from, Siblings(n.rows, Parent(n.path, from)));
    PlaceOfAPosition(n, from);
    AVersionHasALeaf(n.rows, Parent(n.path, from), version);
  }

  lemma {:induction false} SameStartSameParent(a: seq<nat>, b: seq<nat>, at: nat)
    requires at <= |a| && at <= |b| && a[..at] == b[..at]
    ensures Parent(a, at) == Parent(b, at)
  {
    if at > 0 {
      assert a[at - 1] == a[..at][at - 1] == b[..at][at - 1];
    }
  }

  lemma {:induction false} APathIsItsPrefixAndTail(n: Node, from: nat)
    requires Shape(n) && from < |n.path|
    ensures n.path[..from] + Tail(n.rows, n.path[|n.path| - 1], Parent(n.path, from)) == n.path
  {
    APathIsItsTail(n, from, |n.path| - 1);
    assert n.path[from..|n.path| - 1 + 1] == n.path[from..];
  }

  lemma {:induction false} ATailEndsThePathExactlyWhen(n: Node, from: nat, leaf: nat)
    requires Shape(n) && from < |n.path| && leaf < |n.rows|
    ensures n.path[..from] + Tail(n.rows, leaf, Parent(n.path, from)) == n.path <==> leaf == n.path[|n.path| - 1]
  {
    APathIsItsPrefixAndTail(n, from);
    var tail := Tail(n.rows, leaf, Parent(n.path, from));
    var path := n.path[..from] + tail;
    assert path[|path| - 1] == tail[|tail| - 1] == leaf;
  }

  /** Switching to another version and back restores the path exactly when the path it left ended at
      the highest-numbered row below its version. */
  lemma {:induction false} SwitchingBackRestoresThePathExactlyWhen(n: Node, position: nat, version: nat, earlier: nat)
    requires Shape(n) && Switched(n, position, version).Ok?
    requires version != earlier
    requires var from := Switched(n, position, version).value.1;
             && from < |n.path|
             && var place := Siblings(n.rows, Parent(n.path, from));
             && Numbered(place) && |Starts(place)| <= U32_MAX && VersionRows(place, earlier).Some?
    ensures
      var (away, from) := Switched(n, position, version).value;
      && Shape(away) && Switched(away, from, earlier).Ok?
      && (Switched(away, from, earlier).value.0.path == n.path
          <==> Latest(n.rows, VersionRows(Siblings(n.rows, Parent(n.path, from)), earlier).value, |n.rows|)
               == Some(n.path[|n.path| - 1]))
  {
    SwitchKeepsTheShape(n, position, version);
    SwitchLandsOnTheVersionsLatestLeaf(n, position, version);
    var (away, from) := Switched(n, position, version).value;
    SameStartSameParent(away.path, n.path, from);
    ASwitchAmongVersions(away, from, earlier);
    var members := VersionRows(Siblings(n.rows, Parent(n.path, from)), earlier).value;
    ATailEndsThePathExactlyWhen(n, from, Latest(n.rows, members, |n.rows|).value);
  }
}
