/**
 The save protocol (crates/agent-session/src/core.rs, persist.rs): a session marks the rows it
 changes, a save takes the marks with the rows it writes, and a save that fails puts them back.
 Transcript changes come at any time between the steps of a save.
 */
module SaveProtocol {
  import opened Wrappers
  import opened Blocks
  import opened TreeStore
  import opened DirtyRows

  /** `stored` and `path` differ in marked rows only. */
  ghost predicate Agrees(stored: seq<Block>, path: seq<Block>, marks: Marks) {
    && marks.Valid()
    && (marks.floor.None? ==> |stored| == |path|)
    && (marks.floor.Some? ==> marks.floor.value <= |stored| && marks.floor.value <= |path|)
    && (forall p :: p in marks.points ==> p < |stored| && p < |path|)
    && (forall i: nat {:trigger marks.Has(i)} :: i < |stored| && i < |path| && !marks.Has(i) ==> stored[i] == path[i])
  }

  // The changes of a transcript keep unmarked rows as they were stored.

  lemma {:induction false} AnAppendAgrees(stored: seq<Block>, path: seq<Block>, marks: Marks, block: Block)
    requires Agrees(stored, path, marks)
    ensures Agrees(stored, path + [block], marks.MoveFrom(|path|))
  {
    var moved := marks.MoveFrom(|path|);
    forall i: nat | i < |stored| && i < |path| + 1 && !moved.Has(i) ensures stored[i] == (path + [block])[i] {
      assert !marks.Has(i) && i < |path|;
    }
  }

  lemma {:induction false} AnInsertAgrees(stored: seq<Block>, path: seq<Block>, marks: Marks, at: nat, block: Block)
    requires Agrees(stored, path, marks) && at <= |path|
    ensures Agrees(stored, path[..at] + [block] + path[at..], marks.MoveFrom(at))
  {
    var moved := marks.MoveFrom(at);
    forall i: nat | i < |stored| && i <= |path| && !moved.Has(i)
      ensures stored[i] == (path[..at] + [block] + path[at..])[i]
    {
      assert !marks.Has(i) && i < at;
    }
  }

  lemma {:induction false} ACutAgrees(stored: seq<Block>, path: seq<Block>, marks: Marks, at: nat)
    requires Agrees(stored, path, marks) && at <= |path|
    ensures Agrees(stored, path[..at], marks.MoveFrom(at))
  {
    var moved := marks.MoveFrom(at);
    forall i: nat | i < |stored| && i < at && !moved.Has(i) ensures stored[i] == path[..at][i] {
      assert !marks.Has(i);
    }
  }

  lemma {:induction false} AChangeAgrees(stored: seq<Block>, path: seq<Block>, marks: Marks, at: nat, block: Block)
    requires Agrees(stored, path, marks) && at < |path|
    ensures Agrees(stored, path[at := block], marks.Change(at))
  {
    var changed := marks.Change(at);
    forall i: nat | i < |stored| && i < |path| && !changed.Has(i) ensures stored[i] == path[at := block][i] {
      assert !marks.Has(i) && i != at;
    }
  }

  lemma {:induction false} MoreMarksAgree(
      stored: seq<Block>, between: seq<Block>, path: seq<Block>, taken: Marks, since: Marks)
    requires Agrees(stored, between, taken) && Agrees(between, path, since)
    ensures Agrees(stored, path, since.Merge(taken))
  {
    var all := since.Merge(taken);
    forall i: nat | i < |stored| && i < |path| && !all.Has(i) ensures stored[i] == path[i] {
      assert !since.Has(i) && !taken.Has(i);
      assert i < |between|;
    }
  }

  // What a save writes.

  /** The blocks of `path` at `indices`. */
  function ChangesAt(path: seq<Block>, indices: seq<nat>): (changed: seq<Change>)
    requires forall k :: 0 <= k < |indices| ==> indices[k] < |path|
    ensures |changed| == |indices|
    ensures forall k :: 0 <= k < |indices| ==> changed[k] == Change(indices[k], path[indices[k]])
  {
    seq(|indices|, k requires 0 <= k < |indices| => Change(indices[k], path[indices[k]]))
  }

  lemma {:induction false} AddedOfAscending(cut: nat, changed: seq<Change>, at: nat)
    requires forall j, k :: 0 <= j < k < |changed| ==> changed[j].position < changed[k].position
    requires at <= |changed|
    requires forall k :: 0 <= k < |changed| ==> (changed[k].position < cut <==> k < at)
    ensures Added(cut, changed) == changed[at..]
  {
    if changed != [] {
      if at > 0 {
        AddedOfAscending(cut, changed[1..], at - 1);
      } else {
        AddedOfAscending(cut, changed[1..], 0);
      }
    }
  }

  lemma {:induction false} LastOfAscending(changed: seq<Change>, position: nat)
    requires forall j, k :: 0 <= j < k < |changed| ==> changed[j].position < changed[k].position
    ensures LastChange(changed, position).None? ==> forall k :: 0 <= k < |changed| ==> changed[k].position != position
    ensures forall k :: 0 <= k < |changed| && changed[k].position == position ==>
                          LastChange(changed, position) == Some(changed[k].block)
  {
    if changed != [] {
      LastOfAscending(changed[1..], position);
      if LastChange(changed[1..], position).Some? {
        LastChangeIsOne(changed[1..], position);
        var j :| 0 <= j < |changed[1..]| && changed[1..][j].position == position;
        assert changed[0].position < changed[j + 1].position;
      }
      forall k | 0 <= k < |changed| && changed[k].position == position
        ensures LastChange(changed, position) == Some(changed[k].block)
      {
        if k > 0 {
          assert changed[1..][k - 1] == changed[k];
        }
      }
      if LastChange(changed, position).None? {
        forall k | 0 <= k < |changed| ensures changed[k].position != position {
          if k > 0 { assert changed[1..][k - 1] == changed[k]; }
        }
      }
    }
  }

  lemma {:induction false} LastChangeIsOne(changed: seq<Change>, position: nat)
    requires LastChange(changed, position).Some?
    ensures exists k :: 0 <= k < |changed| && changed[k] == Change(position, LastChange(changed, position).value)
  {
    if LastChange(changed[1..], position).Some? {
      LastChangeIsOne(changed[1..], position);
      var k :| 0 <= k < |changed[1..]| && changed[1..][k] == Change(position, LastChange(changed, position).value);
      assert changed[k + 1] == changed[1..][k];
    } else {
      assert changed[0] == Change(position, LastChange(changed, position).value);
    }
  }

  ghost predicate Ascending(indices: seq<nat>) {
    forall j, k :: 0 <= j < k < |indices| ==> indices[j] < indices[k]
  }

  lemma {:induction false} SplitAscending(indices: seq<nat>, cut: nat) returns (at: nat)
    requires Ascending(indices)
    ensures at <= |indices|
    ensures forall k :: 0 <= k < |indices| ==> (indices[k] < cut <==> k < at)
  {
    if indices == [] || indices[0] >= cut {
      at := 0;
    } else {
      var rest := SplitAscending(indices[1..], cut);
      at := rest + 1;
      forall k | 0 <= k < |indices| ensures indices[k] < cut <==> k < at {
        if k > 0 { assert indices[1..][k - 1] == indices[k]; }
      }
    }
  }

  lemma {:induction false} AscendingOverARange(indices: seq<nat>, low: nat, high: nat)
    requires Ascending(indices) && low <= high
    requires forall i: nat :: i in indices <==> low <= i < high
    ensures |indices| == high - low
    ensures forall k :: 0 <= k < |indices| ==> indices[k] == low + k
    decreases high - low
  {
    assert low < high ==> low in indices;
    if indices != [] {
      assert indices[0] in indices;
      var k :| 0 <= k < |indices| && indices[k] == low;
      assert k == 0;
      var rest := indices[1..];
      forall i: nat ensures i in rest <==> low + 1 <= i < high {
        assert low + 1 <= i < high ==> i in indices;
        if i in rest {
          var j :| 0 <= j < |rest| && rest[j] == i;
          assert indices[j + 1] in indices && indices[0] < indices[j + 1];
        }
      }
      AscendingOverARange(rest, low + 1, high);
    }
  }

  /** The indices leave out only rows of `stored` before the cut that are as `target` has them. */
  ghost predicate Covers(stored: seq<Block>, target: seq<Block>, indices: seq<nat>, cut: nat) {
    && Ascending(indices)
    && (forall k :: 0 <= k < |indices| ==> indices[k] < |target|)
    && cut <= |stored|
    && (forall i: nat :: i < |target| && i !in indices ==> i < cut && stored[i] == target[i])
  }

  /** The indices from the cut on are all there are up to the target's end. */
  lemma {:induction false} TheLaterIndicesAreARange(indices: seq<nat>, cut: nat, count: nat, at: nat)
    requires Ascending(indices) && cut <= count && at <= |indices|
    requires forall k :: 0 <= k < |indices| ==> indices[k] < count && (indices[k] < cut <==> k < at)
    requires forall i: nat :: cut <= i < count ==> i in indices
    ensures |indices[at..]| == count - cut && forall k :: 0 <= k < |indices[at..]| ==> indices[at..][k] == cut + k
  {
    var later := indices[at..];
    assert forall k :: 0 <= k < |later| ==> later[k] == indices[at + k];
    forall i: nat ensures i in later <==> cut <= i < count {
      if cut <= i < count {
        assert i in indices;
        var k :| 0 <= k < |indices| && indices[k] == i;
        assert later[k - at] == i;
      }
    }
    AscendingOverARange(later, cut, count);
  }

  lemma {:induction false} ChangesOverARangeFillUp(changed: seq<Change>, cut: nat, count: nat)
    requires cut <= count && |changed| == count - cut
    requires forall k :: 0 <= k < |changed| ==> changed[k].position == cut + k
    ensures FillsUp(changed, cut, count)
  {
  }

  lemma {:induction false} CoveringChangesFillUp(stored: seq<Block>, target: seq<Block>, indices: seq<nat>, cut: nat)
    requires Covers(stored, target, indices, cut) && cut <= |target|
    ensures FillsUp(Added(cut, ChangesAt(target, indices)), cut, |target|)
  {
    var changed := ChangesAt(target, indices);
    var at := SplitAscending(indices, cut);
    AddedOfAscending(cut, changed, at);
    TheLaterIndicesAreARange(indices, cut, |target|, at);
    forall k | 0 <= k < |changed[at..]| ensures changed[at..][k].position == cut + k {
      assert changed[at..][k].position == indices[at..][k];
    }
    ChangesOverARangeFillUp(changed[at..], cut, |target|);
  }

  lemma {:induction false} CoveringChangesGiveTheTarget(
      stored: seq<Block>, target: seq<Block>, indices: seq<nat>, cut: nat, i: nat)
    requires Covers(stored, target, indices, cut) && i < |target|
    ensures var last := LastChange(ChangesAt(target, indices), i);
            if last.Some? then last.value == target[i] else i < |stored| && stored[i] == target[i]
  {
    var changed := ChangesAt(target, indices);
    LastOfAscending(changed, i);
    if i in indices {
      var k :| 0 <= k < |indices| && indices[k] == i;
      assert changed[k].position == i;
    } else if LastChange(changed, i).Some? {
      LastChangeIsOne(changed, i);
    }
  }

  /** A save that gives the rows of `target` at `indices`, every row from its cut on among them, and
      leaves out only rows stored as they are, is taken and makes `target` the stored path. */
  lemma {:induction false} AWholeSaveIsTaken(n: Node, target: seq<Block>, indices: seq<nat>, u: Update)
    requires Shape(n) && u.blockCount == |target|
    requires Covers(PathBlocks(n), target, indices, CutAt(n, u)) && u.changed == ChangesAt(target, indices)
    ensures Saved(n, u).1.None? && PathBlocks(Saved(n, u).0) == target
  {
    CoveringChangesFillUp(PathBlocks(n), target, indices, CutAt(n, u));
    SaveIsTakenExactlyWhenItFillsUp(n, u);
    SaveOverlaysThePath(n, u);
    forall i | 0 <= i < |target| ensures PathBlocks(Saved(n, u).0)[i] == target[i] {
      CoveringChangesGiveTheTarget(PathBlocks(n), target, indices, CutAt(n, u), i);
    }
  }
}
