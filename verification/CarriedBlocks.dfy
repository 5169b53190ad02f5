/**
 The versions a carried block shows (crates/agent-store/src/testing.rs, lib.rs): a compaction inserts its
 boundary before a block and writes the block again behind it, and a switch at the block's new position
 is made at the place it was carried from.
 */
module CarriedBlocks {
  import opened Wrappers
  import opened Blocks
  import opened Versions
  import opened TreeStore
  import opened TreeBranches
  import opened TreeSwitch

  /** The row `row` continues the block of `replaced`, which stood at another place. */
  ghost predicate IsCarriedFrom(rows: seq<Row>, row: nat, replaced: nat) {
    && row < |rows| && replaced < |rows|
    && rows[row].inPlaceOf == Some(replaced) && rows[replaced].follows != rows[row].follows
  }

  ghost predicate IsCarried(rows: seq<Row>, row: nat) {
    exists replaced: nat :: IsCarriedFrom(rows, row, replaced)
  }

  /** `chain` leads from its first row, carry by carry, to the row the block was first written as. */
  ghost predicate LeadsToItsOrigin(rows: seq<Row>, chain: seq<nat>) {
    && chain != [] && (forall k :: 0 <= k < |chain| ==> chain[k] < |rows|)
    && (forall k :: 0 <= k < |chain| - 1 ==> IsCarriedFrom(rows, chain[k], chain[k + 1]))
    && !IsCarried(rows, chain[|chain| - 1])
  }

  lemma {:induction false} TheChainEndsAtTheOrigin(rows: seq<Row>, chain: seq<nat>)
    requires Rooted(rows) && LeadsToItsOrigin(rows, chain)
    ensures Carried(rows, chain[0]) == chain[|chain| - 1]
    decreases |chain|
  {
    var row := chain[0];
    if |chain| == 1 {
      var replaced := rows[row].inPlaceOf;
      assert replaced.Some? ==> !IsCarriedFrom(rows, row, replaced.value);
    } else {
      assert IsCarriedFrom(rows, chain[0], chain[1]);
      assert chain[1..][|chain| - 2] == chain[|chain| - 1];
      forall k | 0 <= k < |chain[1..]| - 1 ensures IsCarriedFrom(rows, chain[1..][k], chain[1..][k + 1]) {
        assert IsCarriedFrom(rows, chain[k + 1], chain[k + 2]);
      }
      TheChainEndsAtTheOrigin(rows, chain[1..]);
    }
  }

  /** There is more than one version at the place. */
  ghost predicate HasVersions(rows: seq<Row>, place: Option<nat>)
    requires Rooted(rows)
  {
    SiblingsAreNumbered(rows, place);
    2 <= |Starts(Siblings(rows, place))| <= U32_MAX
  }

  /** The place after which the versions at `position` are, when `origin` is the row its block was first
      written as. */
  ghost function VersionsPlace(n: Node, position: nat, origin: nat): Option<nat>
    requires Shape(n) && position < |n.path| && origin < |n.rows|
  {
    if HasVersions(n.rows, Parent(n.path, position)) then Parent(n.path, position) else n.rows[origin].follows
  }

  lemma {:induction false} OneVersionIsNone(siblings: seq<Sibling>, row: nat)
    requires Numbered(siblings) && !(2 <= |Starts(siblings)| <= U32_MAX)
    ensures VersionsOf(siblings, row).None?
  {
  }

  lemma {:induction false} ABlockShowsTheVersionsOfItsPlace(n: Node, position: nat, chain: seq<nat>)
    requires Shape(n) && position < |n.path| && LeadsToItsOrigin(n.rows, chain) && chain[0] == n.path[position]
    ensures ShownPlace(n, position) == VersionsPlace(n, position, chain[|chain| - 1])
  {
    var own := Parent(n.path, position);
    SiblingsAreNumbered(n.rows, own);
    if HasVersions(n.rows, own) {
      AMemberOfManyShowsItsOwnPlace(n, position, Siblings(n.rows, own));
    } else {
      OneVersionIsNone(Siblings(n.rows, own), n.path[position]);
      TheChainEndsAtTheOrigin(n.rows, chain);
    }
  }

  ghost predicate OnThePath(n: Node, place: Option<nat>) {
    place.None? || place.value in n.path
  }

  /** A switch at a position succeeds exactly when the place its block shows versions of is on the path
      and has the version, and is then made at that place. */
  lemma {:induction false} ASwitchIsMadeAtTheVersionsPlace(n: Node, position: nat, chain: seq<nat>, version: nat)
    requires Shape(n) && position < |n.path| && LeadsToItsOrigin(n.rows, chain) && chain[0] == n.path[position]
    ensures var place := VersionsPlace(n, position, chain[|chain| - 1]);
            && Numbered(Siblings(n.rows, place))
            && (Switched(n, position, version).Ok?
                <==> OnThePath(n, place) && 1 <= version <= |Starts(Siblings(n.rows, place))|)
            && (Switched(n, position, version).Ok? ==>
                  && Switched(n, position, version).value.1 <= |n.path|
                  && Parent(n.path, Switched(n, position, version).value.1) == place)
  {
    ABlockShowsTheVersionsOfItsPlace(n, position, chain);
    var place := ShownPlace(n, position);
    SiblingsAreNumbered(n.rows, place);
    if PlaceAt(n, place).Some? {
      PlaceIsOnThePath(n, place);
      if VersionRows(Siblings(n.rows, place), version).Some? {
        AVersionHasALeaf(n.rows, place, version);
      }
    }
  }

  // A save that carries a block.

  /** What the next block a save appends is written as. */
  lemma {:induction false} TheNextAppended(
      s: Saving, cut: nat, changed: seq<Change>) returns (t: Saving, rest: seq<Change>)
    requires SavingShape(s) && cut <= |s.node.path|
    requires Added(cut, changed) != [] && Added(cut, changed)[0].position == |s.node.path|
    ensures SavingShape(t) && Grown(s.node.rows, t.node.rows) && t.node.path == s.node.path + [|s.node.rows|]
    ensures |t.node.rows| == |s.node.rows| + 1
    ensures t.node.rows[|s.node.rows|].follows == Parent(s.node.path, |s.node.path|)
    ensures t.node.rows[|s.node.rows|].inPlaceOf == ReplacedBy(s, Added(cut, changed)[0].block)
    ensures t.moved == s.moved - {Added(cut, changed)[0].block.id} && t.node.cut == None
    ensures Added(cut, rest) == Added(cut, changed)[1..] && Write(s, cut, changed) == Write(t, cut, rest)
    decreases |changed|
  {
    var c := changed[0];
    if c.position < cut {
      MarkShape(s, c.position, c.block);
      t, rest := TheNextAppended(Mark(s, c.position, c.block), cut, changed[1..]);
    } else {
      AppendShape(s, c.block);
      t, rest := Append(s, c.block), changed[1..];
    }
  }

  /** The save inserts a boundary before the block at `at`, which it writes again behind it. */
  ghost predicate InsertsABoundary(n: Node, u: Update, at: nat)
    requires Shape(n)
  {
    var added := Added(at, u.changed);
    && !u.version && at < |n.path| && CutAt(n, u) == at && Saved(n, u).1.None?
    && |added| >= 2 && added[0].position == at && added[1].position == at + 1
    && (forall k :: at <= k < |n.path| ==> PathBlocks(n)[k].id != added[0].block.id)
    && added[1].block.id == PathBlocks(n)[at].id
    && (forall k :: at < k < |n.path| ==> PathBlocks(n)[k].id != PathBlocks(n)[at].id)
  }

  lemma {:induction false} NoneOfATail(rows: seq<Row>, tail: seq<nat>, id: BlockId)
    requires forall k :: 0 <= k < |tail| ==> tail[k] < |rows| && rows[tail[k]].block.id != id
    ensures id !in RowsById(rows, tail)
  {
    if tail != [] {
      NoneOfATail(rows, tail[1..], id);
    }
  }

  lemma {:induction false} TheFirstOfATail(rows: seq<Row>, tail: seq<nat>)
    requires tail != [] && forall k :: 0 <= k < |tail| ==> tail[k] < |rows|
    requires forall k :: 0 < k < |tail| ==> rows[tail[k]].block.id != rows[tail[0]].block.id
    ensures var id := rows[tail[0]].block.id; id in RowsById(rows, tail) && RowsById(rows, tail)[id] == tail[0]
  {
    NoneOfATail(rows, tail[1..], rows[tail[0]].block.id);
  }

  /** What a compaction's save leaves: the boundary in place of the block, and the block, carried, as the one
      row that follows the boundary. */
  ghost predicate CarriesBehindABoundary(n: Node, m: Node, at: nat) {
    var first := |n.rows|;
    && Shape(n) && Shape(m) && Grown(n.rows, m.rows) && at < |n.path| && at + 1 < |m.path|
    && m.path[..at] == n.path[..at] && m.path[at] == first && m.path[at + 1] == first + 1 < |m.rows|
    && m.rows[first].inPlaceOf == Some(n.path[at]) && m.rows[first].follows == Parent(n.path, at)
    && m.rows[first + 1].inPlaceOf == Some(n.path[at]) && m.rows[first + 1].follows == Some(first)
    && Siblings(m.rows, Some(first)) == [Sibling(first + 1, Some(n.path[at]))]
    && Siblings(m.rows, Parent(n.path, at)) == Siblings(n.rows, Parent(n.path, at)) + [Sibling(first, Some(n.path[at]))]
    && (forall k :: at <= k < |m.path| ==> m.path[k] == first + (k - at)) && |m.rows| == first + (|m.path| - at)
  }

  lemma {:induction false} TheTailsIds(rows: seq<Row>, path: seq<nat>, blocks: seq<Block>, at: nat, boundary: BlockId)
    requires at < |path| == |blocks|
    requires forall k :: 0 <= k < |path| ==> path[k] < |rows| && rows[path[k]].block == blocks[k]
    requires forall k :: at <= k < |path| ==> blocks[k].id != boundary
    requires forall k :: at < k < |path| ==> blocks[k].id != blocks[at].id
    ensures var moved := RowsById(rows, path[at..]);
            boundary !in moved && blocks[at].id in moved && moved[blocks[at].id] == path[at]
  {
    var tail := path[at..];
    assert forall k :: 0 <= k < |tail| ==> tail[k] == path[at + k] && rows[tail[k]].block == blocks[at + k];
    NoneOfATail(rows, tail, boundary);
    TheFirstOfATail(rows, tail);
  }

  /** The cut tail as a save finds it. */
  function TailById(n: Node, at: nat): map<BlockId, nat>
    requires Shape(n) && at <= |n.path|
  {
    RowsById(n.rows, n.path[at..])
  }

  lemma {:induction false} IdsOfTheTail(n: Node, u: Update, at: nat)
    requires Shape(n) && InsertsABoundary(n, u, at)
    ensures var (moved, added) := (TailById(n, at), Added(at, u.changed));
            && added[0].block.id !in moved && added[1].block.id in moved && moved[added[1].block.id] == n.path[at]
  {
    TheTailsIds(n.rows, n.path, PathBlocks(n), at, Added(at, u.changed)[0].block.id);
  }

  lemma {:induction false} ABoundaryReplacesItsBlock(s: Saving, boundary: Block, cut: nat)
    requires cut < |s.node.rows| && s.node.cut == Some(cut) && boundary.id !in s.moved
    requires s.node.rows[cut].follows == Parent(s.node.path, |s.node.path|)
    ensures ReplacedBy(s, boundary) == Some(cut)
  {
  }

  lemma {:induction false} TheCutRowFollowsThePath(n: Node, at: nat)
    requires Shape(n) && at < |n.path|
    ensures n.path[at] < |n.rows| && n.rows[n.path[at]].follows == Parent(n.path, at) == Parent(n.path[..at], at)
  {
  }

  /** The boundary is written in place of the block it stands before. */
  lemma {:induction false} TheBoundaryAppended(n: Node, u: Update, at: nat) returns (s: Saving, rest: seq<Change>)
    requires Shape(n) && InsertsABoundary(n, u, at)
    ensures SavingShape(s) && Grown(n.rows, s.node.rows) && |s.node.rows| == |n.rows| + 1
    ensures s.node.path == n.path[..at] + [|n.rows|]
    ensures s.node.rows[|n.rows|].inPlaceOf == Some(n.path[at]) && s.node.rows[|n.rows|].follows == Parent(n.path, at)
    ensures Added(at, rest) == Added(at, u.changed)[1..] && Saved(n, u).0 == Write(s, at, rest).0.node
    ensures s.moved == TailById(n, at) - {Added(at, u.changed)[0].block.id}
  {
    BeginShape(n, u);
    IdsOfTheTail(n, u, at);
    TheCutRowFollowsThePath(n, at);
    ABoundaryReplacesItsBlock(Begin(n, u), Added(at, u.changed)[0].block, n.path[at]);
    s, rest := TheNextAppended(Begin(n, u), at, u.changed);
  }

  lemma {:induction false} GrownFurther(a: seq<Row>, b: seq<Row>, c: seq<Row>)
    requires Grown(a, b) && Grown(b, c)
    ensures Grown(a, c)
  {
  }

  /** The block is written again behind the boundary, in place of its row. */
  lemma {:induction false} TwoRowsAppended(n: Node, u: Update, at: nat) returns (t: Saving, rest: seq<Change>)
    requires Shape(n) && InsertsABoundary(n, u, at)
    ensures SavingShape(t) && Grown(n.rows, t.node.rows) && |t.node.rows| == |n.rows| + 2
    ensures t.node.path == n.path[..at] + [|n.rows|] + [|n.rows| + 1]
    ensures t.node.rows[|n.rows|].inPlaceOf == Some(n.path[at]) && t.node.rows[|n.rows|].follows == Parent(n.path, at)
    ensures t.node.rows[|n.rows| + 1].inPlaceOf == Some(n.path[at])
    ensures t.node.rows[|n.rows| + 1].follows == Some(|n.rows|)
    ensures Saved(n, u).0 == Write(t, at, rest).0.node
  {
    IdsOfTheTail(n, u, at);
    var s, first := TheBoundaryAppended(n, u, at);
    t, rest := TheNextAppended(s, at, first);
    GrownFurther(n.rows, s.node.rows, t.node.rows);
  }

  lemma {:induction false} NoneFollowsANewRow(rows: seq<Row>, number: nat)
    requires Rooted(rows) && |rows| <= number + 1
    ensures Siblings(rows, Some(number)) == []
  {
    SiblingsAreNumbered(rows, Some(number));
    var siblings := Siblings(rows, Some(number));
    assert siblings != [] ==> Member(siblings, siblings[0].row);
  }

  lemma {:induction false} TheCarriedBlockFollowsTheBoundaryAlone(t: Saving, rest: seq<Change>, at: nat, first: nat)
    requires SavingShape(t) && |t.node.rows| == first + 2 && at <= |t.node.path|
    requires |t.node.path| > 0 && t.node.path[|t.node.path| - 1] == first + 1
    requires t.node.rows[first + 1].follows == Some(first)
    ensures Siblings(Write(t, at, rest).0.node.rows, Some(first)) == [Sibling(first + 1, t.node.rows[first + 1].inPlaceOf)]
  {
    LaterRowsAreElsewhere(t, at, rest, Some(first));
    var before := t.node.rows[..first + 1];
    NoneFollowsANewRow(before, first);
    SameLinksSameSiblings(before, t.node.rows, Some(first), first + 1);
  }

  lemma {:induction false} ACompactionsPath(n: Node, u: Update, at: nat)
    requires Shape(n) && InsertsABoundary(n, u, at)
    ensures var m := Saved(n, u).0;
            && |m.path| >= at && m.path[..at] == n.path[..at] && |m.rows| == |n.rows| + (|m.path| - at)
            && forall k :: at <= k < |m.path| ==> m.path[k] == |n.rows| + (k - at)
  {
    BeginShape(n, u);
    WriteGrows(Begin(n, u), at, u.changed);
    WrittenRowsAreNew(Begin(n, u), at, u.changed);
    EveryRowIsOnThePath(Begin(n, u), at, u.changed);
  }

  lemma {:induction false} ACompactionsRows(n: Node, u: Update, at: nat)
    requires Shape(n) && InsertsABoundary(n, u, at)
    ensures var (m, first) := (Saved(n, u).0, |n.rows|);
            && at + 2 <= |m.path| && first + 2 <= |m.rows| && Grown(n.rows, m.rows)
            && m.rows[first].inPlaceOf == Some(n.path[at]) && m.rows[first].follows == Parent(n.path, at)
            && m.rows[first + 1].inPlaceOf == Some(n.path[at]) && m.rows[first + 1].follows == Some(first)
            && Siblings(m.rows, Some(first)) == [Sibling(first + 1, Some(n.path[at]))]
  {
    var t, rest := TwoRowsAppended(n, u, at);
    WriteGrows(t, at, rest);
    TheCarriedBlockFollowsTheBoundaryAlone(t, rest, at, |n.rows|);
    GrownFurther(n.rows, t.node.rows, Saved(n, u).0.rows);
  }

  lemma {:induction false} TheBoundaryIsOneMoreSibling(n: Node, u: Update, at: nat)
    requires Shape(n) && InsertsABoundary(n, u, at)
    ensures Siblings(Saved(n, u).0.rows, Parent(n.path, at))
            == Siblings(n.rows, Parent(n.path, at)) + [Sibling(|n.rows|, Some(n.path[at]))]
  {
    TheBranchIsOneMoreSibling(n, u);
    BeginShape(n, u);
    IdsOfTheTail(n, u, at);
    TheCutRowFollowsThePath(n, at);
    ABoundaryReplacesItsBlock(Begin(n, u), Added(at, u.changed)[0].block, n.path[at]);
  }

  lemma {:induction false} ACompactionCarriesItsBlock(n: Node, u: Update, at: nat)
    requires Shape(n) && InsertsABoundary(n, u, at)
    ensures CarriesBehindABoundary(n, Saved(n, u).0, at)
  {
    ACompactionsPath(n, u, at);
    ACompactionsRows(n, u, at);
    TheBoundaryIsOneMoreSibling(n, u, at);
  }

  /** A save writes a row for each position it appends and no other. */
  lemma {:induction false} EveryRowIsOnThePath(s: Saving, cut: nat, changed: seq<Change>)
    requires SavingShape(s) && cut <= |s.node.path|
    ensures var w := Write(s, cut, changed).0.node;
            |w.rows| - |s.node.rows| == |w.path| - |s.node.path|
    decreases |changed|
  {
    if changed != [] {
      var c := changed[0];
      if c.position < cut {
        MarkShape(s, c.position, c.block);
        EveryRowIsOnThePath(Mark(s, c.position, c.block), cut, changed[1..]);
      } else if c.position == |s.node.path| {
        AppendShape(s, c.block);
        EveryRowIsOnThePath(Append(s, c.block), cut, changed[1..]);
      }
    }
  }

  // A switch behind a boundary.

  lemma {:induction false} OneSiblingIsOneVersion(only: Sibling)
    requires Numbered([only])
    ensures |Starts([only])| <= 1
  {
    var starts := Starts([only]);
    assert |starts| > 1 ==> starts[0] < starts[1];
    forall k | 0 <= k < |starts| ensures starts[k] == only.row {
      assert starts[k] in starts;
      assert Member([only], starts[k]);
    }
  }

  /** The place of a block that a compaction carried for the first time is still where its versions are. */
  lemma {:induction false} TheCarriedBlocksPlace(n: Node, m: Node, at: nat)
    requires CarriesBehindABoundary(n, m, at) && !IsCarried(n.rows, n.path[at])
    ensures LeadsToItsOrigin(m.rows, [m.path[at + 1], n.path[at]])
    ensures VersionsPlace(m, at + 1, n.path[at]) == Parent(n.path, at) == Parent(m.path, at)
  {
    var (row, was) := (m.path[at + 1], n.path[at]);
    TheCutRowFollowsThePath(n, at);
    assert IsCarriedFrom(m.rows, row, was);
    forall replaced: nat ensures !IsCarriedFrom(m.rows, was, replaced) {
      assert !IsCarriedFrom(n.rows, was, replaced);
    }
    OneSiblingIsOneVersion(Sibling(|n.rows| + 1, Some(was)));
    SameStartSameParent(m.path, n.path, at);
  }

  /** The boundary joins the version of the block it stands before, and every version keeps its number. */
  lemma {:induction false} VersionsBehindABoundary(n: Node, m: Node, at: nat, version: nat)
    requires CarriesBehindABoundary(n, m, at)
    ensures var (before, after) := (Siblings(n.rows, Parent(n.path, at)), Siblings(m.rows, Parent(n.path, at)));
            && Numbered(before) && Numbered(after) && |Starts(after)| == |Starts(before)|
            && (VersionRows(before, version).Some? <==> VersionRows(after, version).Some?)
            && (VersionRows(before, version).Some? ==>
                  forall row :: row in VersionRows(after, version).value
                                <==> row in VersionRows(before, version).value
                                     || (row == |n.rows| && n.path[at] in VersionRows(before, version).value))
  {
    var place := Parent(n.path, at);
    var (before, added) := (Siblings(n.rows, place), Sibling(|n.rows|, Some(n.path[at])));
    SiblingsAreNumbered(n.rows, place);
    SiblingsAreNumbered(m.rows, place);
    TheCutRowFollowsThePath(n, at);
    ReplacingKeepsTheVersions(before, added);
    if VersionRows(before, version).Some? {
      var start := Starts(before)[version - 1];
      forall row ensures row in RowsFrom(before + [added], before + [added], start)
                         <==> row in RowsFrom(before, before, start)
                              || (row == |n.rows| && n.path[at] in RowsFrom(before, before, start)) {
        FindAfterAppend(before, added, row);
        if Member(before, row) { StartAfterAppend(before, added, row); }
      }
    }
  }

  // The rows below a version, once the compaction is saved.

  lemma {:induction false} OlderRowsAreBelowAsBefore(
      rows: seq<Row>, after: seq<Row>, members: seq<nat>, more: seq<nat>, row: nat)
    requires Rooted(rows) && Rooted(after) && Grown(rows, after) && row < |rows|
    requires forall r: nat :: r < |rows| ==> (r in more <==> r in members)
    ensures IsBelow(after, more, row) <==> IsBelow(rows, members, row)
    decreases row
  {
    if rows[row].follows.Some? {
      OlderRowsAreBelowAsBefore(rows, after, members, more, rows[row].follows.value);
    }
  }

  /** No new row is below a version the compacted block is not of. */
  lemma {:induction false} NewRowsAreBelowNoOtherVersion(n: Node, m: Node, at: nat, members: seq<nat>, position: nat)
    requires CarriesBehindABoundary(n, m, at) && at <= position < |m.path|
    requires At(n.rows, members, Parent(n.path, at))
    ensures !IsBelow(m.rows, members, m.path[position])
    decreases position
  {
    var row := m.path[position];
    assert m.rows[row].follows == Parent(m.path, position);
    if position == at {
      var place := Parent(n.path, at);
      SameStartSameParent(m.path, n.path, at);
      if place.Some? && IsBelow(m.rows, members, place.value) {
        BelowIsNewer(m.rows, members, place, place.value);
        assert false;
      }
    } else {
      NewRowsAreBelowNoOtherVersion(n, m, at, members, position - 1);
    }
  }

  lemma {:induction false} EveryNewRowIsBelowTheBoundary(n: Node, m: Node, at: nat, members: seq<nat>, position: nat)
    requires CarriesBehindABoundary(n, m, at) && at <= position < |m.path| && m.path[at] in members
    ensures IsBelow(m.rows, members, m.path[position])
    decreases position
  {
    assert m.rows[m.path[position]].follows == Parent(m.path, position);
    if position > at {
      EveryNewRowIsBelowTheBoundary(n, m, at, members, position - 1);
    }
  }

  /** Whether `row` is the highest-numbered row below the members. */
  ghost predicate IsLatestBelow(rows: seq<Row>, members: seq<nat>, row: nat)
    requires Rooted(rows)
  {
    row < |rows| && IsBelow(rows, members, row) && forall r :: 0 <= r < |rows| && IsBelow(rows, members, r) ==> r <= row
  }

  lemma {:induction false} TheLatestOfAnotherVersion(
      n: Node, m: Node, at: nat, members: seq<nat>, more: seq<nat>, leaf: nat)
    requires CarriesBehindABoundary(n, m, at) && At(n.rows, members, Parent(n.path, at))
    requires (forall r: nat :: r in more <==> r in members) && IsLatestBelow(m.rows, more, leaf)
    ensures IsLatestBelow(n.rows, members, leaf)
  {
    assert At(n.rows, more, Parent(n.path, at));
    if leaf >= |n.rows| {
      var position := at + (leaf - |n.rows|);
      NewRowsAreBelowNoOtherVersion(n, m, at, more, position);
      assert false;
    }
    forall row | 0 <= row < |n.rows| ensures IsBelow(m.rows, more, row) <==> IsBelow(n.rows, members, row) {
      OlderRowsAreBelowAsBefore(n.rows, m.rows, members, more, row);
    }
  }

  lemma {:induction false} TheLatestOfTheOwnVersion(n: Node, m: Node, at: nat, more: seq<nat>, leaf: nat)
    requires CarriesBehindABoundary(n, m, at) && m.path[at] in more && IsLatestBelow(m.rows, more, leaf)
    ensures leaf == m.path[|m.path| - 1]
  {
    EveryNewRowIsBelowTheBoundary(n, m, at, more, |m.path| - 1);
  }

  // The main result.

  /** What a switch behind a boundary does: it keeps the path before the boundary's position and ends at the
      highest-numbered row below the version of the place before the compaction; the block's own version is
      the path as it is. */
  ghost predicate SwitchesAsBefore(n: Node, m: Node, at: nat, version: nat, r: Result<(Node, nat), StoreError>)
    requires Shape(n) && at < |n.path| && Numbered(Siblings(n.rows, Parent(n.path, at)))
    requires VersionRows(Siblings(n.rows, Parent(n.path, at)), version).Some?
  {
    var members := VersionRows(Siblings(n.rows, Parent(n.path, at)), version).value;
    && r.Ok? && r.value.1 == at && |r.value.0.path| > at && r.value.0.path[..at] == n.path[..at]
    && (if n.path[at] in members then r.value.0.path == m.path
        else IsLatestBelow(n.rows, members, r.value.0.path[|r.value.0.path| - 1]))
  }

  lemma {:induction false} ASwitchIsMadeAtTheBoundary(n: Node, m: Node, at: nat, version: nat)
    requires CarriesBehindABoundary(n, m, at) && !IsCarried(n.rows, n.path[at])
    requires Numbered(Siblings(m.rows, Parent(n.path, at)))
    requires VersionRows(Siblings(m.rows, Parent(n.path, at)), version).Some?
    ensures Switched(m, at + 1, version).Ok? && Switched(m, at + 1, version).value.1 == at
    ensures ShownPlace(m, at + 1) == Parent(n.path, at)
  {
    TheCarriedBlocksPlace(n, m, at);
    ABlockShowsTheVersionsOfItsPlace(m, at + 1, [m.path[at + 1], n.path[at]]);
    PlaceOfAPosition(m, at);
    AVersionHasALeaf(m.rows, Parent(n.path, at), version);
  }

  lemma {:induction false} TheLeafOfASwitch(n: Node, position: nat, version: nat)
    requires Shape(n) && Switched(n, position, version).Ok?
    ensures var (after, from) := Switched(n, position, version).value;
            && from <= |n.path| && |after.path| > from && after.path[|after.path| - 1] < |n.rows|
            && after.path == n.path[..from] + Tail(n.rows, after.path[|after.path| - 1], Parent(n.path, from))
  {
    PlaceIsOnThePath(n, ShownPlace(n, position));
  }

  /** The path keeps what is before `at` and goes on to the highest-numbered row below the members. */
  ghost predicate EndsLatest(m: Node, at: nat, members: seq<nat>, path: seq<nat>)
    requires Shape(m) && at <= |m.path|
  {
    && |path| > at && path[..at] == m.path[..at] && IsLatestBelow(m.rows, members, path[|path| - 1])
    && path == m.path[..at] + Tail(m.rows, path[|path| - 1], Parent(m.path, at))
  }

  /** Where a switch made at `at` ends. */
  lemma {:induction false} ASwitchEndsLatest(m: Node, position: nat, at: nat, version: nat)
    requires Shape(m) && Switched(m, position, version).Ok? && Switched(m, position, version).value.1 == at
    ensures at <= |m.path| && Numbered(Siblings(m.rows, Parent(m.path, at)))
    ensures VersionRows(Siblings(m.rows, Parent(m.path, at)), version).Some?
    ensures EndsLatest(m, at, VersionRows(Siblings(m.rows, Parent(m.path, at)), version).value,
                       Switched(m, position, version).value.0.path)
  {
    ASwitchKeepsThePathBefore(m, position, version);
    SwitchLandsOnTheVersionsLatestLeaf(m, position, version);
    TheLeafOfASwitch(m, position, version);
  }

  lemma {:induction false} TheOwnVersionIsThePath(n: Node, m: Node, at: nat, more: seq<nat>, path: seq<nat>)
    requires CarriesBehindABoundary(n, m, at) && m.path[at] in more && EndsLatest(m, at, more, path)
    ensures path == m.path
  {
    TheLatestOfTheOwnVersion(n, m, at, more, path[|path| - 1]);
    APathIsItsPrefixAndTail(m, at);
  }

  lemma {:induction false} AnotherVersionEndsAsBefore(
      n: Node, m: Node, at: nat, members: seq<nat>, more: seq<nat>, path: seq<nat>)
    requires CarriesBehindABoundary(n, m, at) && At(n.rows, members, Parent(n.path, at))
    requires (forall r: nat :: r in more <==> r in members) && EndsLatest(m, at, more, path)
    ensures IsLatestBelow(n.rows, members, path[|path| - 1])
  {
    TheLatestOfAnotherVersion(n, m, at, members, more, path[|path| - 1]);
  }

  /** After a compaction inserted its boundary before a block, a switch at the block's new position to a
      version of the place it stood at lands where the same switch would have landed before. */
  lemma {:induction false} ACarriedBlockSwitchesItsOldPlace(n: Node, u: Update, at: nat, version: nat)
    requires Shape(n) && InsertsABoundary(n, u, at) && !IsCarried(n.rows, n.path[at])
    requires Numbered(Siblings(n.rows, Parent(n.path, at)))
    requires VersionRows(Siblings(n.rows, Parent(n.path, at)), version).Some?
    ensures SwitchesAsBefore(n, Saved(n, u).0, at, version, Switched(Saved(n, u).0, at + 1, version))
  {
    ACompactionCarriesItsBlock(n, u, at);
    ACarriedBlockSwitches(n, Saved(n, u).0, at, version);
  }

  lemma {:induction false} ACarriedBlockSwitches(n: Node, m: Node, at: nat, version: nat)
    requires CarriesBehindABoundary(n, m, at) && !IsCarried(n.rows, n.path[at])
    requires Numbered(Siblings(n.rows, Parent(n.path, at)))
    requires VersionRows(Siblings(n.rows, Parent(n.path, at)), version).Some?
    ensures SwitchesAsBefore(n, m, at, version, Switched(m, at + 1, version))
  {
    var place := Parent(n.path, at);
    VersionsBehindABoundary(n, m, at, version);
    ASwitchIsMadeAtTheBoundary(n, m, at, version);
    ASwitchEndsLatest(m, at + 1, at, version);
    SameStartSameParent(m.path, n.path, at);
    VersionRowsFollowThePlace(n.rows, place, version);
    ItEndsAsBefore(n, m, at, VersionRows(Siblings(n.rows, place), version).value,
                   VersionRows(Siblings(m.rows, place), version).value, Switched(m, at + 1, version).value.0.path);
  }

  lemma {:induction false} ItEndsAsBefore(n: Node, m: Node, at: nat, members: seq<nat>, more: seq<nat>, path: seq<nat>)
    requires CarriesBehindABoundary(n, m, at) && At(n.rows, members, Parent(n.path, at)) && EndsLatest(m, at, more, path)
    requires forall row :: row in more <==> row in members || (row == |n.rows| && n.path[at] in members)
    ensures path[..at] == n.path[..at]
    ensures if n.path[at] in members then path == m.path else IsLatestBelow(n.rows, members, path[|path| - 1])
  {
    if n.path[at] in members {
      TheOwnVersionIsThePath(n, m, at, more, path);
    } else {
      AnotherVersionEndsAsBefore(n, m, at, members, more, path);
    }
  }

  // A block that is carried again.

  /** A block that was carried before shows the versions of the place it first stood at, and so those of the
      place it was carried from last exactly when that is the same. */
  lemma {:induction false} AnotherCarryShowsTheLastPlaceExactlyWhen(n: Node, m: Node, at: nat, chain: seq<nat>)
    requires CarriesBehindABoundary(n, m, at) && LeadsToItsOrigin(n.rows, chain) && chain[0] == n.path[at]
    ensures LeadsToItsOrigin(m.rows, [m.path[at + 1]] + chain)
    ensures VersionsPlace(m, at + 1, chain[|chain| - 1]) == Parent(n.path, at)
            <==> n.rows[chain[|chain| - 1]].follows == Parent(n.path, at)
  {
    var (longer, last) := ([m.path[at + 1]] + chain, chain[|chain| - 1]);
    TheCutRowFollowsThePath(n, at);
    forall k | 0 <= k < |longer| - 1 ensures IsCarriedFrom(m.rows, longer[k], longer[k + 1]) {
      if k > 0 { assert IsCarriedFrom(n.rows, chain[k - 1], chain[k]); }
    }
    forall replaced: nat ensures !IsCarriedFrom(m.rows, last, replaced) {
      assert !IsCarriedFrom(n.rows, last, replaced);
    }
    OneSiblingIsOneVersion(Sibling(|n.rows| + 1, Some(n.path[at])));
    NewRowsStandElsewhere(n, m, at);
  }

  lemma {:induction false} NewRowsStandElsewhere(n: Node, m: Node, at: nat)
    requires CarriesBehindABoundary(n, m, at)
    ensures Parent(m.path, at + 1) == Some(|n.rows|) && !HasVersions(m.rows, Some(|n.rows|))
    ensures Parent(n.path, at) != Some(|n.rows|)
  {
    TheCutRowFollowsThePath(n, at);
    OneSiblingIsOneVersion(Sibling(|n.rows| + 1, Some(n.path[at])));
  }

  /** A message that a compaction carried and that was edited afterwards: rows 3 and 4 are its versions behind
      the boundary, row 2. */
  function EditedBehindABoundary(root: Block, message: Block, boundary: Block, edited: Block): Node {
    Node([Row(root, None, None), Row(message, Some(0), None), Row(boundary, Some(0), Some(1)),
          Row(message, Some(2), Some(1)), Row(edited, Some(2), None)], [0, 2, 3], None)
  }

  function AnotherBoundary(boundary: Block, message: Block): Update {
    Update([Change(2, boundary), Change(3, message)], 4, Some(2), false)
  }

  lemma {:induction false} TheSecondBoundaryIsInserted(
      root: Block, message: Block, first: Block, edited: Block, second: Block)
    requires second.id != message.id
    ensures var (n, u) := (EditedBehindABoundary(root, message, first, edited), AnotherBoundary(second, message));
            && Shape(n) && InsertsABoundary(n, u, 2) && CutAt(n, u) == 2
            && |Saved(n, u).0.rows| == 7 && |Saved(n, u).0.path| == 4
  {
    var (n, u) := (EditedBehindABoundary(root, message, first, edited), AnotherBoundary(second, message));
    assert Shape(n);
    AllOfTheSecondBoundaryIsAdded(second, message);
    TheSecondBoundaryIsTaken(n, u);
    assert InsertsABoundary(n, u, 2);
    ACompactionsPath(n, u, 2);
  }

  lemma {:induction false} AllOfTheSecondBoundaryIsAdded(second: Block, message: Block)
    ensures Added(2, AnotherBoundary(second, message).changed) == AnotherBoundary(second, message).changed
  {
    var changed := AnotherBoundary(second, message).changed;
    assert changed[1..] == [Change(3, message)] && changed[1..][1..] == [];
    assert Added(2, changed[1..]) == [Change(3, message)];
  }

  lemma {:induction false} TheSecondBoundaryIsTaken(n: Node, u: Update)
    requires Shape(n) && CutAt(n, u) == 2 && u.blockCount == 4 && FillsUp(Added(2, u.changed), 2, 4)
    ensures Saved(n, u).1.None? && |Saved(n, u).0.path| == 4
  {
    SaveIsTakenExactlyWhenItFillsUp(n, u);
  }

  lemma {:induction false} OneVersionBeforeTheBoundary(rows: seq<Row>)
    requires Rooted(rows) && |rows| == 7
    requires rows[0].follows == None && rows[1].follows == Some(0) && rows[1].inPlaceOf == None
    requires rows[2].follows == Some(0) && rows[2].inPlaceOf == Some(1)
    requires forall r :: 3 <= r < 7 ==> rows[r].follows != Some(0)
    ensures Numbered(Siblings(rows, Some(0))) && |Starts(Siblings(rows, Some(0)))| <= 1
  {
    var siblings := Siblings(rows, Some(0));
    SiblingsAreNumbered(rows, Some(0));
    assert Replaced(siblings, 2) == Some(1) by {
      assert Member(siblings, 2) && Member(siblings, 1);
    }
    var starts := Starts(siblings);
    assert |starts| > 1 ==> starts[0] < starts[1];
    forall k | 0 <= k < |starts| ensures starts[k] == 1 {
      assert starts[k] in starts;
      assert IsStart(siblings, starts[k]);
    }
  }

  lemma {:induction false} TwoVersionsBehindTheBoundary(rows: seq<Row>)
    requires Rooted(rows) && |rows| == 5
    requires rows[3].follows == Some(2) && rows[3].inPlaceOf == Some(1) && rows[4].follows == Some(2) && rows[4].inPlaceOf == None
    requires rows[1].follows == Some(0)
    ensures HasVersions(rows, Some(2)) && VersionRows(Siblings(rows, Some(2)), 2).Some?
  {
    var siblings := Siblings(rows, Some(2));
    SiblingsAreNumbered(rows, Some(2));
    assert Member(siblings, 3) && Member(siblings, 4) && !Member(siblings, 1);
    assert IsStart(siblings, 3) && IsStart(siblings, 4);
    var starts := Starts(siblings);
    assert 3 in starts && 4 in starts;
    AtMostTheSiblings(rows, starts);
  }

  lemma {:induction false} AtMostTheSiblings(rows: seq<Row>, starts: seq<nat>)
    requires Rooted(rows) && |rows| == 5 && starts == Starts(Siblings(rows, Some(2))) && 3 in starts && 4 in starts
    requires Numbered(Siblings(rows, Some(2))) && rows[1].follows == Some(0)
    ensures 2 <= |starts| <= U32_MAX
  {
    SiblingsAreNumbered(rows, Some(2));
    SameElementsSameOrder(starts, [3, 4]) by {
      forall row ensures row in starts <==> row in [3, 4] {
        assert row in starts ==> Member(Siblings(rows, Some(2)), row);
      }
    }
  }

  lemma {:induction false} TheEditedVersionIsThere(n: Node)
    requires Shape(n) && |n.rows| == 5 && n.path == [0, 2, 3] && n.rows[1].follows == Some(0)
    requires n.rows[3].follows == Some(2) && n.rows[3].inPlaceOf == Some(1)
    requires n.rows[4].follows == Some(2) && n.rows[4].inPlaceOf == None
    ensures Switched(n, 2, 2).Ok?
  {
    TwoVersionsBehindTheBoundary(n.rows);
    ASwitchAmongVersions(n, 2, 2);
  }

  lemma {:induction false} TheSwitchIsRefused(n: Node, m: Node, chain: seq<nat>)
    requires CarriesBehindABoundary(n, m, 2) && LeadsToItsOrigin(n.rows, chain) && chain[0] == n.path[2]
    requires n.rows[chain[|chain| - 1]].follows == Some(0)
    requires Numbered(Siblings(m.rows, Some(0))) && |Starts(Siblings(m.rows, Some(0)))| <= 1
    ensures Switched(m, 3, 2).Err?
  {
    AnotherCarryShowsTheLastPlaceExactlyWhen(n, m, 2, chain);
    NewRowsStandElsewhere(n, m, 2);
    ASwitchIsMadeAtTheVersionsPlace(m, 3, [m.path[3]] + chain, 2);
  }

  lemma {:induction false} TheMessagesChain(n: Node)
    requires |n.rows| == 5 && n.rows[3].inPlaceOf == Some(1) && n.rows[1].inPlaceOf == None
    requires n.rows[1].follows == Some(0) && n.rows[3].follows == Some(2)
    ensures LeadsToItsOrigin(n.rows, [3, 1])
  {
    assert IsCarriedFrom(n.rows, 3, 1);
  }

  /** The other version of an edited message cannot be switched to once the message is carried again: before the
      second compaction it can. */
  lemma {:induction false} ASecondCarryHidesVersions(
      root: Block, message: Block, first: Block, edited: Block, second: Block)
    requires second.id != message.id
    ensures var (n, u) := (EditedBehindABoundary(root, message, first, edited), AnotherBoundary(second, message));
            && Shape(n) && InsertsABoundary(n, u, 2) && Switched(n, 2, 2).Ok?
            && Switched(Saved(n, u).0, 3, 2).Err?
  {
    var (n, u) := (EditedBehindABoundary(root, message, first, edited), AnotherBoundary(second, message));
    TheSecondBoundaryIsInserted(root, message, first, edited, second);
    TheEditedVersionIsThere(n);
    TheMessagesChain(n);
    ACompactionCarriesItsBlock(n, u, 2);
    TheRowsOfTheSecondCarry(n, Saved(n, u).0);
    OneVersionBeforeTheBoundary(Saved(n, u).0.rows);
    TheSwitchIsRefused(n, Saved(n, u).0, [3, 1]);
  }

  lemma {:induction false} TheRowsOfTheSecondCarry(n: Node, m: Node)
    requires CarriesBehindABoundary(n, m, 2) && |n.rows| == 5 && n.path == [0, 2, 3] && |m.rows| == 7
    requires n.rows[0].follows == None && n.rows[1].follows == Some(0) && n.rows[1].inPlaceOf == None
    requires n.rows[2].follows == Some(0) && n.rows[2].inPlaceOf == Some(1)
    requires n.rows[3].follows == Some(2) && n.rows[4].follows == Some(2)
    ensures m.rows[0].follows == None && m.rows[1].follows == Some(0) && m.rows[1].inPlaceOf == None
    ensures m.rows[2].follows == Some(0) && m.rows[2].inPlaceOf == Some(1)
    ensures forall r :: 3 <= r < 7 ==> m.rows[r].follows != Some(0)
  {
  }
}
