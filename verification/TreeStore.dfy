/**
 One node of the conversation's tree store (crates/agent-store/src/testing.rs).

 A transcript is an append-only tree of rows and one current path through it. A save cuts and
 branches the path, and a switch makes the latest leaf of a version current.
 */
module TreeStore {
  import opened Wrappers
  import opened Blocks
  import opened Versions

  datatype Row = Row(block: Block, follows: Option<nat>, inPlaceOf: Option<nat>)

  /** `path` holds the row at each position; `cut`, while some save left the path short, is the first
      row it took off, which the next appended row stands in for. */
  datatype Node = Node(rows: seq<Row>, path: seq<nat>, cut: Option<nat>)

  datatype Change = Change(position: nat, block: Block)

  datatype Update = Update(changed: seq<Change>, blockCount: nat, movedFrom: Option<nat>, version: bool)

  datatype StoreError =
    | Missing
    | Exists
    | SkipsPosition
    | LeavesPathShort
    | PathEndsBefore
    | PathLeavesPlace
    | NoSuchVersion
    | PrefixLength

  // The tree's shape.

  /** The row before position `at` of a path, which the row there follows. */
  function Parent(path: seq<nat>, at: nat): Option<nat>
    requires at <= |path|
  {
    if at == 0 then None else Some(path[at - 1])
  }

  ghost predicate Before(row: Option<nat>, number: nat) {
    row.Some? ==> row.value < number
  }

  ghost predicate Rooted(rows: seq<Row>) {
    forall r :: 0 <= r < |rows| ==> Before(rows[r].follows, r) && Before(rows[r].inPlaceOf, r)
  }

  ghost predicate Chained(rows: seq<Row>, path: seq<nat>) {
    && (forall k :: 0 <= k < |path| ==> path[k] < |rows|)
    && (forall k {:trigger rows[path[k]]} :: 0 <= k < |path| ==> rows[path[k]].follows == Parent(path, k))
  }

  /** Every row follows and replaces older rows only, and the path is exactly a parent chain from a
      row with no parent. */
  ghost predicate Shape(n: Node) {
    Rooted(n.rows) && Chained(n.rows, n.path) && Before(n.cut, |n.rows|)
  }

  /** No row of `a` is gone from `b`, and none has another parent or stands in for another row. */
  ghost predicate Grown(a: seq<Row>, b: seq<Row>) {
    && |a| <= |b|
    && forall r :: 0 <= r < |a| ==> a[r].follows == b[r].follows && a[r].inPlaceOf == b[r].inPlaceOf
  }

  lemma {:induction false} PathAscends(n: Node, i: nat, j: nat)
    requires Shape(n) && i < j < |n.path|
    ensures n.path[i] < n.path[j]
  {
    assert n.rows[n.path[j]].follows == Some(n.path[j - 1]);
    if i < j - 1 {
      PathAscends(n, i, j - 1);
    }
  }

  function PathBlocks(n: Node): (blocks: seq<Block>)
    requires Shape(n)
    ensures |blocks| == |n.path|
  {
    seq(|n.path|, k requires 0 <= k < |n.path| => n.rows[n.path[k]].block)
  }

  // A save.

  function Min(a: nat, b: nat): nat {
    if a < b then a else b
  }

  /** The length of the path a save leaves before it appends. */
  function CutAt(n: Node, u: Update): (cut: nat)
    ensures cut <= |n.path| && cut <= u.blockCount
  {
    Min(Min(if u.movedFrom.Some? then u.movedFrom.value else u.blockCount, u.blockCount), |n.path|)
  }

  /** The rows of `tail` by the id of their block, the last of an id winning. */
  function RowsById(rows: seq<Row>, tail: seq<nat>): (byId: map<BlockId, nat>)
    requires forall k :: 0 <= k < |tail| ==> tail[k] < |rows|
    ensures forall id :: id in byId ==> byId[id] in tail && rows[byId[id]].block.id == id
    ensures forall k :: 0 <= k < |tail| ==> rows[tail[k]].block.id in byId
  {
    if tail == [] then map[]
    else
      var rest := RowsById(rows, tail[1..]);
      map[rows[tail[0]].block.id := tail[0]] + rest
  }

  /** The node between two changes of a save; `moved` are the cut rows that wait to be carried, by id. */
  datatype Saving = Saving(node: Node, moved: map<BlockId, nat>)

  function Begin(n: Node, u: Update): Saving
    requires Shape(n)
  {
    var cut := CutAt(n, u);
    var node := n.(
      path := n.path[..cut],
      cut := if u.version then None else if cut < |n.path| then Some(n.path[cut]) else n.cut);
    Saving(node, RowsById(n.rows, n.path[cut..]))
  }

  /** The row a block appended to the path is written in place of. */
  function ReplacedBy(s: Saving, block: Block): Option<nat>
    requires Before(s.node.cut, |s.node.rows|)
  {
    if block.id in s.moved then Some(s.moved[block.id])
    else if s.node.cut.Some? && s.node.rows[s.node.cut.value].follows == Parent(s.node.path, |s.node.path|)
    then s.node.cut
    else None
  }

  function Append(s: Saving, block: Block): Saving
    requires Before(s.node.cut, |s.node.rows|)
  {
    var row := Row(block, Parent(s.node.path, |s.node.path|), ReplacedBy(s, block));
    Saving(Node(s.node.rows + [row], s.node.path + [|s.node.rows|], None), s.moved - {block.id})
  }

  function Mark(s: Saving, position: nat, block: Block): Saving
    requires position < |s.node.path| && s.node.path[position] < |s.node.rows|
  {
    var row := s.node.path[position];
    s.(node := s.node.(rows := s.node.rows[row := s.node.rows[row].(block := block)]))
  }

  ghost predicate SavingShape(s: Saving) {
    Shape(s.node) && forall id :: id in s.moved ==> s.moved[id] < |s.node.rows|
  }

  lemma {:induction false} BeginShape(n: Node, u: Update)
    requires Shape(n)
    ensures SavingShape(Begin(n, u)) && Begin(n, u).node.rows == n.rows
  {
    var s := Begin(n, u);
    forall k | 0 <= k < |s.node.path| ensures s.node.rows[s.node.path[k]].follows == Parent(s.node.path, k) {
      assert s.node.path[k] == n.path[k];
    }
  }

  lemma {:induction false} AppendShape(s: Saving, block: Block)
    requires SavingShape(s)
    ensures SavingShape(Append(s, block)) && Grown(s.node.rows, Append(s, block).node.rows)
  {
    var a := Append(s, block);
    var last := |s.node.path|;
    forall k | 0 <= k < |a.node.path|
      ensures a.node.path[k] < |a.node.rows| && a.node.rows[a.node.path[k]].follows == Parent(a.node.path, k)
    {
      if k < last { assert a.node.path[k] == s.node.path[k]; }
      assert Parent(a.node.path, k) == Parent(s.node.path, k);
    }
  }

  lemma {:induction false} MarkShape(s: Saving, position: nat, block: Block)
    requires SavingShape(s) && position < |s.node.path|
    ensures SavingShape(Mark(s, position, block)) && Grown(s.node.rows, Mark(s, position, block).node.rows)
  {
  }

  /** The changed blocks in order, each in its row below the cut and appended from it on, up to the
      first that skips a position; and whether none did. */
  function Write(s: Saving, cut: nat, changed: seq<Change>): (r: (Saving, bool))
    requires SavingShape(s) && cut <= |s.node.path|
    ensures SavingShape(r.0) && |s.node.path| <= |r.0.node.path|
    decreases |changed|
  {
    if changed == [] then (s, true)
    else
      var c := changed[0];
      if c.position < cut then
        MarkShape(s, c.position, c.block);
        Write(Mark(s, c.position, c.block), cut, changed[1..])
      else if c.position != |s.node.path| then (s, false)
      else
        AppendShape(s, c.block);
        Write(Append(s, c.block), cut, changed[1..])
  }

  lemma {:induction false} WriteGrows(s: Saving, cut: nat, changed: seq<Change>)
    requires SavingShape(s) && cut <= |s.node.path|
    ensures Grown(s.node.rows, Write(s, cut, changed).0.node.rows)
    ensures Write(s, cut, changed).0.node.path[..|s.node.path|] == s.node.path
    decreases |changed|
  {
    if changed != [] {
      var c := changed[0];
      if c.position < cut {
        MarkShape(s, c.position, c.block);
        WriteGrows(Mark(s, c.position, c.block), cut, changed[1..]);
      } else if c.position == |s.node.path| {
        AppendShape(s, c.block);
        var a := Append(s, c.block);
        WriteGrows(a, cut, changed[1..]);
        var path := Write(a, cut, changed[1..]).0.node.path;
        assert path[..|s.node.path|] == path[..|a.node.path|][..|s.node.path|];
      }
    }
  }

  /** The node as a save leaves it, also when the save is refused, and the refusal. */
  function Saved(n: Node, u: Update): (r: (Node, Option<StoreError>))
    requires Shape(n)
    ensures Shape(r.0) && Grown(n.rows, r.0.rows)
  {
    BeginShape(n, u);
    WriteGrows(Begin(n, u), CutAt(n, u), u.changed);
    var (s, whole) := Write(Begin(n, u), CutAt(n, u), u.changed);
    (s.node,
     if !whole then Some(SkipsPosition)
     else if |s.node.path| != u.blockCount then Some(LeavesPathShort)
     else None)
  }

  // A save that succeeds lays the update over the path.

  /** The changes from the cut on, in order. */
  function Added(cut: nat, changed: seq<Change>): (added: seq<Change>) {
    if changed == [] then []
    else if changed[0].position < cut then Added(cut, changed[1..])
    else [changed[0]] + Added(cut, changed[1..])
  }

  /** Whether the blocks from the cut on are given one at a time, from position `next` to the end. */
  ghost predicate FillsUp(added: seq<Change>, next: nat, end: nat) {
    next + |added| == end && forall k :: 0 <= k < |added| ==> added[k].position == next + k
  }

  lemma {:induction false} WriteSucceedsWhenItFillsUp(s: Saving, cut: nat, changed: seq<Change>)
    requires SavingShape(s) && cut <= |s.node.path|
    ensures forall end ::
      Write(s, cut, changed).1 && |Write(s, cut, changed).0.node.path| == end
      <==> FillsUp(Added(cut, changed), |s.node.path|, end)
    decreases |changed|
  {
    if changed != [] {
      var c := changed[0];
      var rest := Added(cut, changed[1..]);
      var added := Added(cut, changed);
      if c.position < cut {
        MarkShape(s, c.position, c.block);
        WriteSucceedsWhenItFillsUp(Mark(s, c.position, c.block), cut, changed[1..]);
      } else if c.position == |s.node.path| {
        AppendShape(s, c.block);
        WriteSucceedsWhenItFillsUp(Append(s, c.block), cut, changed[1..]);
        assert forall k :: 0 <= k < |rest| ==> added[k + 1] == rest[k];
        forall end
          ensures FillsUp(rest, |s.node.path| + 1, end) <==> FillsUp(added, |s.node.path|, end)
        {
          if FillsUp(added, |s.node.path|, end) {
            forall k | 0 <= k < |rest| ensures rest[k].position == |s.node.path| + 1 + k {
              assert added[k + 1].position == |s.node.path| + (k + 1);
            }
          }
        }
      } else {
        assert added[0] == c;
      }
    }
  }

  /** A save is taken exactly when its update names each block from the cut to its count once and in
      order; what it changes below the cut plays no part. */
  lemma {:induction false} SaveIsTakenExactlyWhenItFillsUp(n: Node, u: Update)
    requires Shape(n)
    ensures Saved(n, u).1.None? <==> FillsUp(Added(CutAt(n, u), u.changed), CutAt(n, u), u.blockCount)
  {
    BeginShape(n, u);
    WriteSucceedsWhenItFillsUp(Begin(n, u), CutAt(n, u), u.changed);
  }

  /** The last block the changes give for a position. */
  function LastChange(changed: seq<Change>, position: nat): Option<Block> {
    if changed == [] then None
    else
      var later := LastChange(changed[1..], position);
      if later.Some? then later
      else if changed[0].position == position then Some(changed[0].block)
      else None
  }

  /** The update laid over `blocks`: at each position the last block given for it, else the one that
      was there. */
  ghost predicate Overlays(blocks: seq<Block>, u: Update, result: seq<Block>) {
    && |result| == u.blockCount
    && forall i :: 0 <= i < u.blockCount ==>
                     && (LastChange(u.changed, i).None? ==> i < |blocks|)
                     && result[i] == (if LastChange(u.changed, i).Some? then LastChange(u.changed, i).value
                                      else blocks[i])
  }

  lemma {:induction false} MarkedBlocks(s: Saving, position: nat, block: Block)
    requires SavingShape(s) && position < |s.node.path|
    ensures Shape(Mark(s, position, block).node)
    ensures PathBlocks(Mark(s, position, block).node) == PathBlocks(s.node)[position := block]
  {
    MarkShape(s, position, block);
    forall k | 0 <= k < |s.node.path| && k != position ensures s.node.path[k] != s.node.path[position] {
      if k < position { PathAscends(s.node, k, position); } else { PathAscends(s.node, position, k); }
    }
  }

  lemma {:induction false} AppendedBlocks(s: Saving, block: Block)
    requires SavingShape(s)
    ensures Shape(Append(s, block).node)
    ensures PathBlocks(Append(s, block).node) == PathBlocks(s.node) + [block]
  {
    AppendShape(s, block);
  }

  lemma {:induction false} WrittenBlocks(s: Saving, cut: nat, changed: seq<Change>, i: nat)
    requires SavingShape(s) && cut <= |s.node.path|
    requires Write(s, cut, changed).1 && i < |Write(s, cut, changed).0.node.path|
    ensures i < |s.node.path| && cut <= i ==> LastChange(changed, i).None?
    ensures i >= |s.node.path| ==> LastChange(changed, i).Some?
    ensures PathBlocks(Write(s, cut, changed).0.node)[i]
            == (if LastChange(changed, i).Some? then LastChange(changed, i).value else PathBlocks(s.node)[i])
    decreases |changed|
  {
    if changed != [] {
      var c := changed[0];
      if c.position < cut {
        MarkedBlocks(s, c.position, c.block);
        MarkShape(s, c.position, c.block);
        WrittenBlocks(Mark(s, c.position, c.block), cut, changed[1..], i);
      } else {
        AppendedBlocks(s, c.block);
        AppendShape(s, c.block);
        WrittenBlocks(Append(s, c.block), cut, changed[1..], i);
      }
    }
  }

  /** A save that is taken turns the path's blocks into the update laid over them. */
  lemma {:induction false} SaveOverlaysThePath(n: Node, u: Update)
    requires Shape(n) && Saved(n, u).1.None?
    ensures Overlays(PathBlocks(n), u, PathBlocks(Saved(n, u).0))
  {
    BeginShape(n, u);
    var s := Begin(n, u);
    assert forall k :: 0 <= k < |s.node.path| ==> PathBlocks(s.node)[k] == PathBlocks(n)[k];
    forall i | 0 <= i < u.blockCount
      ensures LastChange(u.changed, i).None? ==> i < |PathBlocks(n)|
      ensures PathBlocks(Saved(n, u).0)[i]
              == (if LastChange(u.changed, i).Some? then LastChange(u.changed, i).value else PathBlocks(n)[i])
    {
      WrittenBlocks(s, CutAt(n, u), u.changed, i);
    }
  }

  // A save that is refused.

  /** The changes a save makes before the first from the cut on. */
  function InPlace(cut: nat, changed: seq<Change>): (inPlace: seq<Change>)
    ensures |inPlace| <= |changed| && inPlace == changed[..|inPlace|]
    ensures forall k :: 0 <= k < |inPlace| ==> inPlace[k].position < cut
    ensures |inPlace| < |changed| ==> changed[|inPlace|].position >= cut
  {
    if changed == [] || changed[0].position >= cut then [] else [changed[0]] + InPlace(cut, changed[1..])
  }

  lemma {:induction false} InPlaceTouchesThePathOnly(s: Saving, cut: nat, changed: seq<Change>)
    requires SavingShape(s) && cut <= |s.node.path|
    requires forall k :: 0 <= k < |changed| ==> changed[k].position < cut
    ensures var w := Write(s, cut, changed);
            && w.1 && w.0.node.path == s.node.path && w.0.node.cut == s.node.cut
            && |w.0.node.rows| == |s.node.rows|
            && forall r :: 0 <= r < |s.node.rows| && r !in s.node.path ==> w.0.node.rows[r] == s.node.rows[r]
    decreases |changed|
  {
    if changed != [] {
      MarkShape(s, changed[0].position, changed[0].block);
      InPlaceTouchesThePathOnly(Mark(s, changed[0].position, changed[0].block), cut, changed[1..]);
    }
  }

  lemma {:induction false} WriteStopsOrAppendsAfterInPlace(s: Saving, cut: nat, changed: seq<Change>)
    requires SavingShape(s) && cut <= |s.node.path|
    ensures var before := InPlace(cut, changed);
            var appends := |before| < |changed| && changed[|before|].position == |s.node.path|;
            && (!appends ==> Write(s, cut, changed).0 == Write(s, cut, before).0)
            && (appends ==> |Write(s, cut, changed).0.node.path| > |s.node.path|)
    decreases |changed|
  {
    if changed != [] {
      var c := changed[0];
      if c.position < cut {
        var m := Mark(s, c.position, c.block);
        MarkShape(s, c.position, c.block);
        WriteStopsOrAppendsAfterInPlace(m, cut, changed[1..]);
        var before := InPlace(cut, changed);
        assert before[0] == c && before[1..] == InPlace(cut, changed[1..]);
        if |before| < |changed| { assert changed[|before|] == changed[1..][|before| - 1]; }
      } else if c.position == |s.node.path| {
        AppendShape(s, c.block);
      }
    }
  }

  lemma {:induction false} SamePathBlocksSameNode(a: Node, b: Node)
    requires Shape(a) && Shape(b) && a.path == b.path && a.cut == b.cut && |a.rows| == |b.rows|
    requires Grown(a.rows, b.rows)
    requires forall r :: 0 <= r < |a.rows| && r !in a.path ==> b.rows[r] == a.rows[r]
    requires PathBlocks(a) == PathBlocks(b)
    ensures a == b
  {
    forall r | 0 <= r < |a.rows| ensures a.rows[r] == b.rows[r] {
      if r in a.path {
        var k :| 0 <= k < |a.path| && a.path[k] == r;
        assert PathBlocks(a)[k] == PathBlocks(b)[k];
      }
    }
    assert a.rows == b.rows;
  }

  /** Whether the changes leave every block of `blocks` with the value it had. */
  ghost predicate Restates(blocks: seq<Block>, changed: seq<Change>) {
    forall i :: 0 <= i < |blocks| && LastChange(changed, i).Some? ==> LastChange(changed, i).value == blocks[i]
  }

  lemma {:induction false} InPlaceRestatesWhenNothingChanges(s: Saving, changed: seq<Change>)
    requires SavingShape(s)
    requires forall k :: 0 <= k < |changed| ==> changed[k].position < |s.node.path|
    ensures Write(s, |s.node.path|, changed).0.node == s.node <==> Restates(PathBlocks(s.node), changed)
  {
    var cut := |s.node.path|;
    InPlaceTouchesThePathOnly(s, cut, changed);
    WriteGrows(s, cut, changed);
    var w := Write(s, cut, changed).0.node;
    forall i | 0 <= i < cut
      ensures PathBlocks(w)[i]
              == if LastChange(changed, i).Some? then LastChange(changed, i).value else PathBlocks(s.node)[i]
    {
      WrittenBlocks(s, cut, changed, i);
    }
    if Restates(PathBlocks(s.node), changed) {
      SamePathBlocksSameNode(s.node, w);
    }
  }

  /** The contract has a refused save change nothing. This realization keeps to it exactly when the
      update cuts nothing, clears no cut row, appends nothing before the position it skips, and gives
      every block it marks on the way the value the block had. */
  lemma {:induction false} ARefusedSaveChangesNothingExactlyWhen(n: Node, u: Update)
    requires Shape(n) && Saved(n, u).1.Some?
    ensures
      Saved(n, u).0 == n <==>
      (var before := InPlace(|n.path|, u.changed);
       && CutAt(n, u) == |n.path|
       && (u.version ==> n.cut.None?)
       && (|before| < |u.changed| ==> u.changed[|before|].position != |n.path|)
       && Restates(PathBlocks(n), before))
  {
    var cut := CutAt(n, u);
    if cut < |n.path| {
      ACutMovesThePath(n, u);
    } else {
      BeginShape(n, u);
      var s := Begin(n, u);
      assert n.path[..|n.path|] == n.path;
      WriteStopsOrAppendsAfterInPlace(s, cut, u.changed);
      var before := InPlace(cut, u.changed);
      InPlaceTouchesThePathOnly(s, cut, before);
      InPlaceRestatesWhenNothingChanges(s, before);
      assert PathBlocks(s.node) == PathBlocks(n);
    }
  }

  lemma {:induction false} ACutMovesThePath(n: Node, u: Update)
    requires Shape(n) && CutAt(n, u) < |n.path|
    ensures Saved(n, u).0.path != n.path
  {
    BeginShape(n, u);
    var cut := CutAt(n, u);
    WrittenRowsAreNew(Begin(n, u), cut, u.changed);
    var path := Saved(n, u).0.path;
    if |path| > cut {
      assert path[cut] >= |n.rows| > n.path[cut];
    }
  }

  /** The positions a save appends hold new rows. */
  lemma {:induction false} WrittenRowsAreNew(s: Saving, cut: nat, changed: seq<Change>)
    requires SavingShape(s) && cut <= |s.node.path|
    ensures forall k :: |s.node.path| <= k < |Write(s, cut, changed).0.node.path| ==>
                          Write(s, cut, changed).0.node.path[k] == |s.node.rows| + (k - |s.node.path|)
    decreases |changed|
  {
    if changed != [] {
      var c := changed[0];
      if c.position < cut {
        MarkShape(s, c.position, c.block);
        WrittenRowsAreNew(Mark(s, c.position, c.block), cut, changed[1..]);
      } else if c.position == |s.node.path| {
        AppendShape(s, c.block);
        var a := Append(s, c.block);
        WrittenRowsAreNew(a, cut, changed[1..]);
        WriteGrows(a, cut, changed[1..]);
        var path := Write(a, cut, changed[1..]).0.node.path;
        assert path[|s.node.path|] == path[..|a.node.path|][|s.node.path|];
      }
    }
  }

  /** A save that is refused after it cut the path: here an update that skips a position leaves the
      path empty. */
  lemma {:induction false} ARefusedSaveMayHaveCutThePath()
    ensures exists n: Node, u: Update ::
      Shape(n) && Saved(n, u).1.Some? && Saved(n, u).0.path != n.path
  {
    var block := Block(0, Response, None, 0);
    var n := Node([Row(block, None, None)], [0], None);
    var u := Update([Change(1, block)], 2, Some(0), false);
    assert Shape(n);
    BeginShape(n, u);
    assert Write(Begin(n, u), 0, u.changed) == (Begin(n, u), false);
    assert Saved(n, u).1 == Some(SkipsPosition);
    ACutMovesThePath(n, u);
  }
}
