/**
 The transcript a session holds and what the next save writes of it
 (crates/agent-session/src/core.rs, crates/agent-transcript/src/log.rs).
 */
module SessionPaths {
  import opened Wrappers
  import opened Blocks
  import opened TreeStore
  import opened DirtyRows
  import opened SaveProtocol
  import opened SaveRuns

  class SessionPath {
    /** The position of the first block held, and the blocks from there on. */
    var start: nat
    var blocks: seq<Block>
    var dirty: bool
    var rows: Marks
    /** The blocks of the path before those held. */
    ghost var before: seq<Block>

    ghost function State(): Session
      reads this
    {
      Session(before, blocks, dirty, rows)
    }

    ghost predicate Valid()
      reads this
    {
      start == |before| && State().Valid()
    }

    /** Starts a window at `start` of a path whose blocks before it are `earlier`. */
    constructor (blocks: seq<Block>, start: nat, ghost earlier: seq<Block>)
      requires start == |earlier|
      ensures Valid() && State() == Session(earlier, blocks, false, CLEAN)
    {
      this.start, this.blocks, this.dirty, this.rows := start, blocks, false, CLEAN;
      this.before := earlier;
    }

    function Length(): nat
      reads this
    {
      start + |blocks|
    }

    method Append(block: Block)
      requires Valid()
      modifies this
      ensures Valid() && State() == Changed(old(State()), Appends(block))
    {
      rows, dirty := rows.MoveFrom(Length()), true;
      blocks := blocks + [block];
    }

    method InsertBoundary(index: nat, block: Block)
      requires Valid() && start <= index <= Length()
      modifies this
      ensures Valid() && State() == Changed(old(State()), Inserts(index, block))
    {
      rows, dirty := rows.MoveFrom(index), true;
      blocks := blocks[..index - start] + [block] + blocks[index - start..];
    }

    method WithdrawFrom(position: nat)
      requires Valid()
      modifies this
      ensures Valid() && State() == Changed(old(State()), Withdraws(position))
    {
      if position < start || position >= Length() {
        return;
      }
      blocks := blocks[..position - start];
      rows, dirty := rows.MoveFrom(position), true;
    }

    method RecordReplace(index: nat, block: Block)
      requires Valid() && start <= index < Length()
      modifies this
      ensures Valid() && State() == Changed(old(State()), Rewrites(index, block))
    {
      blocks := blocks[index - start := block];
      rows, dirty := rows.Change(index), true;
    }

    /** The next save when one is due, with the rows it took. */
    method PrepareCheckpoint() returns (r: Option<(Update, Marks)>)
      requires Valid()
      modifies this
      ensures Valid() && State() == if old(dirty) then Taken(old(State())) else old(State())
      ensures r == if old(dirty) then Some((SaveOf(old(State()).Path(), old(rows)), old(rows))) else None
    {
      if !dirty {
        return None;
      }
      TheWindowHoldsEveryRowASaveWrites(State());
      ghost var path := State().Path();
      var taken := rows;
      dirty, rows := false, CLEAN;
      var indices := taken.Indices(0, Length());
      assert forall k :: 0 <= k < |indices| ==> SaveOf(path, taken).changed[k].position == indices[k];
      var changed: seq<Change> := [];
      for k := 0 to |indices|
        invariant changed == ChangesAt(path, indices)[..k]
        invariant State() == Taken(old(State()))
      {
        assert ChangesAt(path, indices)[k].position == indices[k];
        changed := changed + [Change(indices[k], blocks[indices[k] - start])];
      }
      assert changed == ChangesAt(path, indices);
      r := Some((Update(changed, Length(), taken.floor, false), taken));
    }

    /** Puts back the rows a failed save took. */
    method RestoreMarks(taken: Marks)
      requires Valid() && taken.Valid() && AllFrom(taken, start)
      modifies this
      ensures Valid() && State() == Restored(old(State()), taken)
    {
      dirty := true;
      rows := rows.Merge(taken);
    }

    /** Moves the window's start up to the last boundary, when no marked row stands before that. */
    method ReleaseSettled()
      requires Valid()
      modifies this
      ensures Valid() && State() == Settled(old(State()))
    {
      var at: nat := |blocks|;
      while at > 0 && !blocks[at - 1].body.CompactionBoundary?
        invariant at <= |blocks|
        invariant LastBoundary(blocks) == LastBoundary(blocks[..at])
      {
        assert blocks[..at][..at - 1] == blocks[..at - 1];
        at := at - 1;
      }
      assert at < |blocks| ==> blocks[..at + 1][..at] == blocks[..at];
      var boundary := if at > 0 then at - 1 else 0;
      assert LastBoundary(blocks) == boundary;
      SomeBelowExactlyWhenNotAllFrom(rows, start + boundary);
      if SomeBelow(rows, start + boundary) {
        return;
      }
      before := before + blocks[..boundary];
      blocks := blocks[boundary..];
      start := start + boundary;
    }

    /** The save of a rewritten history, whose window is `rewritten`. */
    method RewriteUpdate(rewritten: seq<Block>, version: bool) returns (u: Update)
      requires Valid()
      ensures u == RewriteOf(State(), rewritten, version)
    {
      var kept := start + Kept(blocks, rewritten);
      var from := match rows.floor case None => kept case Some(floor) => Min(floor, kept);
      var length := start + |rewritten|;
      var indices := rows.Indices(0, from) + Range(from, length);
      assert from == RewrittenFrom(State(), rewritten);
      ghost var target := before + rewritten;
      assert indices == RewrittenRows(State(), rewritten);
      var changed: seq<Change> := [];
      for k := 0 to |indices|
        invariant changed == ChangesAt(target, indices)[..k]
      {
        assert ChangesAt(target, indices)[k] == Change(indices[k], target[indices[k]]);
        changed := changed + [Change(indices[k], rewritten[indices[k] - start])];
      }
      assert changed == ChangesAt(target, indices);
      u := Update(changed, length, Some(from), version);
    }

    method AdoptRewrite(rewritten: seq<Block>)
      requires Valid()
      modifies this
      ensures Valid() && State() == Adopted(old(State()), rewritten)
    {
      blocks := rewritten;
      rows := CLEAN;
    }

    /** Holds the blocks from `from` on, with `earlier`, the store's from there up to the window. */
    method ExtendBack(from: nat, earlier: seq<Block>, ghost stored: seq<Block>)
      requires Valid() && from <= start <= |stored| && earlier == stored[from..start]
      modifies this
      ensures Valid() && State() == Reached(old(State()), stored, from)
    {
      blocks := earlier + blocks;
      start := from;
      before := before[..from];
    }

    /** Adopts the path a switch made current: `tail` is the store's from `from` on, and `held` the
        store's from the place the window starts anew to `from` when the switch changed the path
        before the window. */
    method AdoptSwitch(from: nat, tail: seq<Block>, held: Option<(nat, seq<Block>)>, ghost stored: seq<Block>)
      requires Valid() && from <= |stored| && tail == stored[from..]
      requires held.None? ==> start <= from <= Length()
      requires held.Some? ==> from < start && held.value.0 <= from && held.value.1 == stored[held.value.0..from]
      modifies this
      ensures Valid()
      ensures State() == SwitchAdopted(old(State()), stored, from, if held.Some? then held.value.0 else 0)
    {
      match held {
        case None =>
          blocks := blocks[..from - start] + tail;
        case Some((at, earlier)) =>
          assert earlier + tail == stored[at..];
          blocks := earlier + tail;
          start := at;
          before := before[..at];
      }
      rows := CLEAN;
    }
  }
}
