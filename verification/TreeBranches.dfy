/**
 The branches of a node's tree (crates/agent-store/src/testing.rs): which versions a save makes, and
 what a switch makes current.
 */
module TreeBranches {
  import opened Wrappers
  import opened Blocks
  import opened Versions
  import opened TreeStore

  // The rows that follow a place.

  /** The rows below number `n` that follow `place`, in the order they were written. */
  function SiblingsBelow(rows: seq<Row>, place: Option<nat>, n: nat): (siblings: seq<Sibling>)
    requires n <= |rows|
    ensures forall i :: 0 <= i < |siblings| ==>
                          && siblings[i].row < n && rows[siblings[i].row].follows == place
                          && siblings[i].inPlaceOf == rows[siblings[i].row].inPlaceOf
    ensures forall i, j :: 0 <= i < j < |siblings| ==> siblings[i].row < siblings[j].row
  {
    if n == 0 then []
    else
      var before := SiblingsBelow(rows, place, n - 1);
      if rows[n - 1].follows == place then before + [Sibling(n - 1, rows[n - 1].inPlaceOf)] else before
  }

  function Siblings(rows: seq<Row>, place: Option<nat>): seq<Sibling> {
    SiblingsBelow(rows, place, |rows|)
  }

  lemma {:induction false} SiblingsAreTheFollowers(rows: seq<Row>, place: Option<nat>, n: nat, row: nat)
    requires n <= |rows|
    ensures Member(SiblingsBelow(rows, place, n), row) <==> row < n && rows[row].follows == place
  {
    var siblings := SiblingsBelow(rows, place, n);
    if n != 0 {
      SiblingsAreTheFollowers(rows, place, n - 1, row);
      var before := SiblingsBelow(rows, place, n - 1);
      if Member(before, row) {
        var i :| 0 <= i < |before| && before[i].row == row;
        assert siblings[i].row == row;
      }
      if row == n - 1 && rows[row].follows == place {
        assert siblings[|before|].row == row;
      }
      if Member(siblings, row) && row != n - 1 {
        var i :| 0 <= i < |siblings| && siblings[i].row == row;
        assert before[i].row == row;
      }
    }
  }

  lemma {:induction false} SiblingsAreNumbered(rows: seq<Row>, place: Option<nat>)
    requires Rooted(rows)
    ensures Numbered(Siblings(rows, place))
    ensures forall row: nat :: Newer(Siblings(rows, place), row) <== row >= |rows|
    ensures forall row: nat :: Member(Siblings(rows, place), row) <==> row < |rows| && rows[row].follows == place
  {
    forall row: nat ensures Member(Siblings(rows, place), row) <==> row < |rows| && rows[row].follows == place {
      SiblingsAreTheFollowers(rows, place, |rows|, row);
    }
  }

  lemma {:induction false} SameLinksSameSiblings(a: seq<Row>, b: seq<Row>, place: Option<nat>, n: nat)
    requires Grown(a, b) && n <= |a|
    ensures SiblingsBelow(a, place, n) == SiblingsBelow(b, place, n)
  {
    if n != 0 {
      SameLinksSameSiblings(a, b, place, n - 1);
    }
  }

  // The versions a save makes at the place it cuts.

  lemma {:induction false} MarkKeepsSiblings(s: Saving, position: nat, block: Block, place: Option<nat>)
    requires SavingShape(s) && position < |s.node.path|
    ensures Siblings(Mark(s, position, block).node.rows, place) == Siblings(s.node.rows, place)
  {
    MarkShape(s, position, block);
    SameLinksSameSiblings(s.node.rows, Mark(s, position, block).node.rows, place, |s.node.rows|);
  }

  lemma {:induction false} AppendedSibling(s: Saving, block: Block, place: Option<nat>)
    requires SavingShape(s)
    ensures Siblings(Append(s, block).node.rows, place)
            == Siblings(s.node.rows, place)
               + if Parent(s.node.path, |s.node.path|) == place
                 then [Sibling(|s.node.rows|, ReplacedBy(s, block))] else []
  {
    AppendShape(s, block);
    SameLinksSameSiblings(s.node.rows, Append(s, block).node.rows, place, |s.node.rows|);
  }

  /** Once the path reaches past a place, no row a save writes is at that place. */
  lemma {:induction false} LaterRowsAreElsewhere(s: Saving, cut: nat, changed: seq<Change>, place: Option<nat>)
    requires SavingShape(s) && cut <= |s.node.path| && |s.node.path| > 0
    requires Before(place, s.node.path[|s.node.path| - 1])
    ensures Siblings(Write(s, cut, changed).0.node.rows, place) == Siblings(s.node.rows, place)
    decreases |changed|
  {
    if changed != [] {
      var c := changed[0];
      if c.position < cut {
        var m := Mark(s, c.position, c.block);
        MarkKeepsSiblings(s, c.position, c.block, place);
        MarkShape(s, c.position, c.block);
        assert m.node.path == s.node.path;
        LaterRowsAreElsewhere(m, cut, changed[1..], place);
      } else if c.position == |s.node.path| {
        var a := Append(s, c.block);
        assert Parent(s.node.path, |s.node.path|) != place;
        AppendedSibling(s, c.block, place);
        AppendShape(s, c.block);
        assert a.node.path[|a.node.path| - 1] == |s.node.rows|;
        LaterRowsAreElsewhere(a, cut, changed[1..], place);
      }
    }
  }

  /** The one row a save writes at the place its path ends at is the first it appends. */
  lemma {:induction false} FirstAddedIsTheNewSibling(s: Saving, cut: nat, changed: seq<Change>)
    requires SavingShape(s) && cut == |s.node.path|
    requires Added(cut, changed) != [] && Added(cut, changed)[0].position == cut
    ensures var place := Parent(s.node.path, cut);
            var w := Write(s, cut, changed).0.node;
            && Siblings(w.rows, place) == Siblings(s.node.rows, place)
                 + [Sibling(|s.node.rows|, ReplacedBy(s, Added(cut, changed)[0].block))]
            && cut < |w.path| && w.path[cut] == |s.node.rows|
    decreases |changed|
  {
    var c := changed[0];
    var place := Parent(s.node.path, cut);
    if c.position < cut {
      MarkKeepsSiblings(s, c.position, c.block, place);
      MarkShape(s, c.position, c.block);
      FirstAddedIsTheNewSibling(Mark(s, c.position, c.block), cut, changed[1..]);
    } else {
      AppendedSibling(s, c.block, place);
      AppendShape(s, c.block);
      var a := Append(s, c.block);
      LaterRowsAreElsewhere(a, cut, changed[1..], place);
      WriteGrows(a, cut, changed[1..]);
      var path := Write(a, cut, changed[1..]).0.node.path;
      assert path[cut] == path[..|a.node.path|][cut];
    }
  }

  /** What the first row after the cut is written in place of, as the save found the node. */
  function FirstReplaces(n: Node, u: Update): Option<nat>
    requires Shape(n) && Added(CutAt(n, u), u.changed) != []
  {
    BeginShape(n, u);
    ReplacedBy(Begin(n, u), Added(CutAt(n, u), u.changed)[0].block)
  }

  /** The place of `after` holds the versions `before` did and one more, begun by `row` and numbered
      last. */
  ghost predicate AddsAVersion(before: seq<Sibling>, after: seq<Sibling>, row: nat) {
    Numbered(before) && Numbered(after) && Starts(after) == Starts(before) + [row]
  }

  /** The place of `after` holds the versions `before` did, and `row` is in that of `other`. */
  ghost predicate JoinsTheVersionOf(before: seq<Sibling>, after: seq<Sibling>, row: nat, other: nat) {
    && Numbered(before) && Numbered(after)
    && Starts(after) == Starts(before) && Start(after, row) == Start(before, other)
  }

  lemma {:induction false} OneMoreSibling(rows: seq<Row>, after: seq<Row>, place: Option<nat>, replaced: Option<nat>)
    requires Rooted(rows) && Rooted(after)
    requires Siblings(after, place) == Siblings(rows, place) + [Sibling(|rows|, replaced)]
    requires Before(replaced, |rows|)
    ensures replaced.Some? && rows[replaced.value].follows == place ==>
              JoinsTheVersionOf(Siblings(rows, place), Siblings(after, place), |rows|, replaced.value)
    ensures !(replaced.Some? && rows[replaced.value].follows == place) ==>
              AddsAVersion(Siblings(rows, place), Siblings(after, place), |rows|)
  {
    SiblingsAreNumbered(rows, place);
    SiblingsAreNumbered(after, place);
    if replaced.Some? && rows[replaced.value].follows == place {
      ReplacingKeepsTheVersions(Siblings(rows, place), Sibling(|rows|, replaced));
    } else {
      AnyOtherBeginsAVersion(Siblings(rows, place), Sibling(|rows|, replaced));
    }
  }

  /** The update begins a branch at the cut: it gives a block for that position first. */
  ghost predicate Branches(n: Node, u: Update) {
    Added(CutAt(n, u), u.changed) != [] && Added(CutAt(n, u), u.changed)[0].position == CutAt(n, u)
  }

  /** Where the branch begins, as the siblings there were and as they are after the save, and the row
      the branch begins with. */
  ghost function SiblingsBefore(n: Node, u: Update): seq<Sibling> {
    Siblings(n.rows, Parent(n.path, CutAt(n, u)))
  }

  ghost function SiblingsAfter(n: Node, u: Update): seq<Sibling>
    requires Shape(n)
  {
    Siblings(Saved(n, u).0.rows, Parent(n.path, CutAt(n, u)))
  }

  lemma {:induction false} TheBranchIsOneMoreSibling(n: Node, u: Update)
    requires Shape(n) && Branches(n, u)
    ensures Before(FirstReplaces(n, u), |n.rows|)
    ensures SiblingsAfter(n, u) == SiblingsBefore(n, u) + [Sibling(|n.rows|, FirstReplaces(n, u))]
    ensures CutAt(n, u) < |Saved(n, u).0.path| && Saved(n, u).0.path[CutAt(n, u)] == |n.rows|
  {
    BeginShape(n, u);
    assert Parent(Begin(n, u).node.path, CutAt(n, u)) == Parent(n.path, CutAt(n, u));
    FirstAddedIsTheNewSibling(Begin(n, u), CutAt(n, u), u.changed);
  }

  lemma {:induction false} VersionsAfterASave(n: Node, u: Update)
    requires Shape(n) && Branches(n, u)
    ensures var replaced := FirstReplaces(n, u);
            && Before(replaced, |n.rows|)
            && if replaced.Some? && n.rows[replaced.value].follows == Parent(n.path, CutAt(n, u))
               then JoinsTheVersionOf(SiblingsBefore(n, u), SiblingsAfter(n, u), |n.rows|, replaced.value)
               else AddsAVersion(SiblingsBefore(n, u), SiblingsAfter(n, u), |n.rows|)
  {
    TheBranchIsOneMoreSibling(n, u);
    OneMoreSibling(n.rows, Saved(n, u).0.rows, Parent(n.path, CutAt(n, u)), FirstReplaces(n, u));
  }

  lemma {:induction false} OnlyTheFirstOfATailIsAtItsPlace(n: Node, cut: nat, k: nat)
    requires Shape(n) && cut < k < |n.path|
    ensures n.rows[n.path[k]].follows != Parent(n.path, cut)
    ensures n.rows[n.path[cut]].follows == Parent(n.path, cut)
    ensures n.path[k] != n.path[cut]
  {
    PathAscends(n, cut, k);
    assert n.rows[n.path[k]].follows == Parent(n.path, k) == Some(n.path[k - 1]);
    if cut > 0 {
      PathAscends(n, cut - 1, k - 1);
    }
  }

  /** Whether the first block of the new branch was carried there from deeper in the tail the save
      cuts off, under its id. */
  predicate CarriesFromDeeper(n: Node, u: Update)
    requires Shape(n) && CutAt(n, u) < |n.path| && Added(CutAt(n, u), u.changed) != []
  {
    var moved := RowsById(n.rows, n.path[CutAt(n, u)..]);
    var id := Added(CutAt(n, u), u.changed)[0].block.id;
    id in moved && moved[id] != n.path[CutAt(n, u)]
  }

  /** Whether the first block of the new branch is the block the cut took off first, under its id. */
  predicate CarriesTheFirst(n: Node, u: Update)
    requires Shape(n) && CutAt(n, u) < |n.path| && Added(CutAt(n, u), u.changed) != []
  {
    var moved := RowsById(n.rows, n.path[CutAt(n, u)..]);
    var id := Added(CutAt(n, u), u.changed)[0].block.id;
    id in moved && moved[id] == n.path[CutAt(n, u)]
  }

  /** A row deeper in the tail a save cut off is at another place. */
  lemma {:induction false} ADeeperRowIsElsewhere(n: Node, cut: nat, row: nat)
    requires Shape(n) && cut < |n.path| && row in n.path[cut..] && row != n.path[cut]
    ensures row < |n.rows| && n.rows[row].follows != Parent(n.path, cut)
  {
    var tail := n.path[cut..];
    var j :| 0 <= j < |tail| && tail[j] == row;
    assert row == n.path[cut + j];
    OnlyTheFirstOfATailIsAtItsPlace(n, cut, cut + j);
  }

  lemma {:induction false} WhatTheFirstRowReplaces(n: Node, u: Update)
    requires Shape(n) && CutAt(n, u) < |n.path| && Added(CutAt(n, u), u.changed) != []
    ensures var place := Parent(n.path, CutAt(n, u));
            var replaced := FirstReplaces(n, u);
            && (CarriesFromDeeper(n, u) ==> replaced.Some? && n.rows[replaced.value].follows != place)
            && (CarriesTheFirst(n, u) ==> replaced == Some(n.path[CutAt(n, u)]))
            && (!CarriesFromDeeper(n, u) && !CarriesTheFirst(n, u) ==>
                  replaced == if u.version then None else Some(n.path[CutAt(n, u)]))
            && n.rows[n.path[CutAt(n, u)]].follows == place
  {
    var cut := CutAt(n, u);
    var moved := RowsById(n.rows, n.path[cut..]);
    var id := Added(cut, u.changed)[0].block.id;
    assert Parent(n.path[..cut], cut) == Parent(n.path, cut);
    assert n.rows[n.path[cut]].follows == Parent(n.path, cut);
    if CarriesFromDeeper(n, u) {
      ADeeperRowIsElsewhere(n, cut, moved[id]);
    }
  }

  /** Own rewrites make no version, and edits make one.

      A save that cuts a tail and begins a branch there keeps the versions of the place, with the new
      row in the version of the row it replaced, or adds one version, numbered last. Which of the two
      is decided by the first new block: one carried from deeper in the tail adds a version, whoever
      rewrites; the block the cut took off first never does; any other adds one exactly when the save
      is a version. */
  lemma {:induction false} RewriteAddsAVersionExactlyWhen(n: Node, u: Update)
    requires Shape(n) && CutAt(n, u) < |n.path| && Branches(n, u)
    ensures CutAt(n, u) < |Saved(n, u).0.path|
    ensures var row := Saved(n, u).0.path[CutAt(n, u)];
            if CarriesFromDeeper(n, u) || (u.version && !CarriesTheFirst(n, u))
            then AddsAVersion(SiblingsBefore(n, u), SiblingsAfter(n, u), row)
            else JoinsTheVersionOf(SiblingsBefore(n, u), SiblingsAfter(n, u), row, n.path[CutAt(n, u)])
  {
    TheBranchIsOneMoreSibling(n, u);
    VersionsAfterASave(n, u);
    WhatTheFirstRowReplaces(n, u);
  }

  lemma {:induction false} ACutAlone(n: Node, u: Update)
    requires Shape(n) && CutAt(n, u) < |n.path| && Added(CutAt(n, u), u.changed) == []
    ensures var m := Saved(n, u).0;
            && m.path == n.path[..CutAt(n, u)] && |m.rows| == |n.rows| && Grown(n.rows, m.rows)
            && m.cut == if u.version then None else Some(n.path[CutAt(n, u)])
  {
    BeginShape(n, u);
    NothingAddedIsInPlace(CutAt(n, u), u.changed);
    InPlaceTouchesThePathOnly(Begin(n, u), CutAt(n, u), u.changed);
  }

  lemma {:induction false} AnAppendReplacesTheCutRow(n: Node, u: Update)
    requires Shape(n) && CutAt(n, u) == |n.path| && Branches(n, u)
    requires n.cut.Some? ==> n.rows[n.cut.value].follows == Parent(n.path, |n.path|)
    ensures FirstReplaces(n, u) == if u.version then None else n.cut
  {
    assert n.path[CutAt(n, u)..] == [];
  }

  /** The same when the cut and the first append are separate saves, whatever the first block's id:
      the branch stands in for what was cut unless either save is a version. */
  lemma {:induction false} ACutAndAnAppendMakeAVersionExactlyWhen(n: Node, first: Update, second: Update)
    requires Shape(n) && CutAt(n, first) < |n.path| && Added(CutAt(n, first), first.changed) == []
    requires CutAt(Saved(n, first).0, second) == |Saved(n, first).0.path| && Branches(Saved(n, first).0, second)
    ensures var cut := CutAt(n, first);
            var after := Saved(Saved(n, first).0, second).0;
            var place := Parent(n.path, cut);
            && cut < |after.path|
            && if first.version || second.version
               then AddsAVersion(Siblings(n.rows, place), Siblings(after.rows, place), after.path[cut])
               else JoinsTheVersionOf(Siblings(n.rows, place), Siblings(after.rows, place), after.path[cut],
                                      n.path[cut])
  {
    var cut := CutAt(n, first);
    var m := Saved(n, first).0;
    var place := Parent(n.path, cut);
    ACutAlone(n, first);
    assert Parent(m.path, cut) == place;
    assert n.rows[n.path[cut]].follows == place;
    SameLinksSameSiblings(n.rows, m.rows, place, |n.rows|);
    AnAppendReplacesTheCutRow(m, second);
    TheBranchIsOneMoreSibling(m, second);
    VersionsAfterASave(m, second);
  }

  lemma {:induction false} NothingAddedIsInPlace(cut: nat, changed: seq<Change>)
    requires Added(cut, changed) == []
    ensures forall k :: 0 <= k < |changed| ==> changed[k].position < cut
  {
    if changed != [] {
      assert changed[0].position < cut;
      NothingAddedIsInPlace(cut, changed[1..]);
      forall k | 0 <= k < |changed| ensures changed[k].position < cut {
        if k > 0 { assert changed[k] == changed[1..][k - 1]; }
      }
    }
  }

  lemma {:induction false} LastOfTwoById(rows: seq<Row>, a: nat, b: nat)
    requires a < |rows| && b < |rows|
    ensures rows[b].block.id in RowsById(rows, [a, b]) && RowsById(rows, [a, b])[rows[b].block.id] == b
  {
    assert [a, b][1..] == [b] && [b][1..] == [];
    assert RowsById(rows, [b]) == map[rows[b].block.id := b] + RowsById(rows, []);
  }

  /** A path of a message, a block and an agent message. */
  function ThreeBlocks(user: Block, dropped: Block, message: Block): Node {
    Node([Row(user, None, None), Row(dropped, Some(0), None), Row(message, Some(1), None)], [0, 1, 2], None)
  }

  function CarryTheMessage(message: Block): Update {
    Update([Change(1, message)], 2, Some(1), false)
  }

  lemma {:induction false} TheUpdateBranches(n: Node, message: Block)
    requires Shape(n) && |n.path| == 3
    ensures var u := CarryTheMessage(message);
            && CutAt(n, u) == 1 && Branches(n, u) && Added(1, u.changed) == [Change(1, message)]
            && Saved(n, u).1.None?
  {
    var u := CarryTheMessage(message);
    assert u.changed[1..] == [];
    SaveIsTakenExactlyWhenItFillsUp(n, u);
  }

  lemma {:induction false} TheMessageIsCarried(n: Node, message: Block)
    requires Shape(n) && |n.rows| == 3 && n.path == [0, 1, 2] && n.rows[2].block == message
    ensures CutAt(n, CarryTheMessage(message)) == 1 && Branches(n, CarryTheMessage(message))
    ensures CarriesFromDeeper(n, CarryTheMessage(message))
  {
    TheUpdateBranches(n, message);
    assert n.path[1..] == [1, 2];
    LastOfTwoById(n.rows, 1, 2);
  }

  /** An own rewrite can offer a version: one that drops a block and carries the agent message after
      it to the front of the new branch. */
  lemma {:induction false} AnOwnRewriteMayAddAVersion(user: Block, dropped: Block, message: Block)
    ensures var n := ThreeBlocks(user, dropped, message);
            var u := CarryTheMessage(message);
            && Shape(n) && !u.version && CutAt(n, u) < |n.path| && Saved(n, u).1.None?
            && CutAt(n, u) < |Saved(n, u).0.path|
            && AddsAVersion(SiblingsBefore(n, u), SiblingsAfter(n, u), Saved(n, u).0.path[CutAt(n, u)])
  {
    var n := ThreeBlocks(user, dropped, message);
    assert Shape(n);
    TheUpdateBranches(n, message);
    TheMessageIsCarried(n, message);
    RewriteAddsAVersionExactlyWhen(n, CarryTheMessage(message));
  }
}
