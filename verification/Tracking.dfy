/** The list's own bookkeeping, changed in place call by call (crates/agent-store/src/changes.rs). */
module Trackings {
  import opened Wrappers
  import opened Paths
  import opened FileTracking

  class Tracking {
    var order: Order
    var files: seq<Tracked>
    var stopped: bool

    function Now(): State
      reads this
    {
      State(order, files, stopped)
    }

    constructor ()
      ensures Now() == State(map[], [], false)
    {
      order, files, stopped := map[], [], false;
    }

    /** Follows one more call: its changes, then what it wrote. A rename that panics stops the tracking. */
    method Add(call: CommandId, report: seq<Written>, changes: seq<PathChange>, own: seq<EditedFile>)
      modifies this
      ensures Now() == AfterCall(old(Now()), call, report, changes, own)
    {
      if stopped {
        return;
      }
      if call !in order {
        order := order[call := |order|];
      }
      var arrived := MakeChanges(changes, own);
      if stopped {
        return;
      }
      ghost var moved := files;
      for k := 0 to |report|
        invariant order == Numbered(old(order), call) && !stopped
        invariant files == AfterWrites(moved, call, report[..k], own, arrived)
      {
        assert report[..k + 1][..k] == report[..k];
        AddWritten(call, report[k], own, arrived);
      }
      assert report[..|report|] == report;
    }

    method MakeChanges(changes: seq<PathChange>, own: seq<EditedFile>) returns (arrived: set<Path>)
      requires !stopped
      modifies this`files, this`stopped
      ensures Moves(files, arrived, stopped) == AfterChanges(order, old(files), changes, own, {})
    {
      arrived := {};
      assert changes[0..] == changes;
      for k := 0 to |changes|
        invariant !stopped
        invariant AfterChanges(order, files, changes[k..], own, arrived)
                  == AfterChanges(order, old(files), changes, own, {})
      {
        assert changes[k..][0] == changes[k] && changes[k..][1..] == changes[k + 1..];
        match changes[k] {
          case Removed(path) => Remove(path, own);
          case Moved(from, target) =>
            arrived := Rename(from, target, arrived, own);
            if stopped {
              return;
            }
        }
      }
    }

    method AddWritten(call: CommandId, file: Written, own: seq<EditedFile>, arrived: set<Path>)
      modifies this`files
      ensures files == AfterWrite(old(files), call, file, own, arrived)
    {
      var at := FirstAt(files, file.path);
      if at == |files| {
        files := files + [Tracked(file.path, file.modified, false, None, false, [])];
      }
      var tracked := files[at];
      if file.path in arrived && file.modified {
        tracked := tracked.(existed := true, from := None);
      }
      tracked := tracked.(removed := false, outside := Marked(own, file.path));
      var edits := tracked.edits;
      for segment := 0 to |file.edits|
        invariant edits == tracked.edits + NewEdits(call, file)[..segment]
      {
        var created := !file.modified && segment == 0;
        edits := edits + [FileEdit(call, file.path, segment, created, file.edits[segment])];
      }
      assert edits == tracked.edits + NewEdits(call, file);
      files := files[at := tracked.(edits := edits)];
    }

    method Remove(path: Path, own: seq<EditedFile>)
      modifies this`files
      ensures files == AfterRemoval(old(files), path, own)
    {
      var outside := Marked(own, Stripped(path));
      var within := false;
      var kept: seq<Tracked> := [];
      for k := 0 to |files|
        invariant files == old(files)
        invariant kept == RemovedIn(files[..k], path, outside)
        invariant within == HoldsWithin(files[..k], path)
      {
        assert files[..k + 1][..k] == files[..k];
        var tracked := files[k];
        if !IsWithin(tracked.path, path) {
          assert HoldsWithin(files[..k + 1], path) ==> HoldsWithin(files[..k], path);
          kept := kept + [tracked];
        } else {
          assert IsWithin(files[..k + 1][k].path, path);
          within := true;
          if tracked.existed {
            kept := kept + [RemovedFile(tracked, outside)];
          }
        }
        assert HoldsWithin(files[..k], path) ==> HoldsWithin(files[..k + 1], path);
      }
      assert files[..|files|] == files;
      files := kept;
      if !within {
        files := files + [Tracked(Stripped(path), true, true, None, outside, [])];
      }
    }

    method Rename(from: Path, target: Path, arrived: set<Path>, own: seq<EditedFile>) returns (r: set<Path>)
      requires !stopped
      modifies this`files, this`stopped
      ensures Moves(files, r, stopped) == AfterRename(order, old(files), from, target, own, arrived)
    {
      var moved := MovedBy(files, from);
      if moved == [] {
        if FirstAt(files, target) < |files| {
          return arrived;
        }
        files := files + [Tracked(target, true, false, Some(from), Marked(own, target), [])];
        return arrived + {target};
      }
      r := MoveEach(moved, from, target, arrived, own);
    }

    /** Renames the files at `moved`, later positions first, so that taking one leaves the others' in
        place. */
    method MoveEach(moved: seq<nat>, from: Path, target: Path, arrived: set<Path>, own: seq<EditedFile>)
      returns (r: set<Path>)
      requires !stopped && CanMove(files, moved)
      modifies this`files, this`stopped
      ensures Moves(files, r, stopped) == MovedEach(order, old(files), moved, from, target, own, arrived)
    {
      r := arrived;
      var left := moved;
      while left != []
        invariant !stopped && CanMove(files, left)
        invariant MovedEach(order, files, left, from, target, own, r)
                  == MovedEach(order, old(files), moved, from, target, own, arrived)
        decreases |left|
      {
        var at := left[|left| - 1];
        r := MoveAt(at, from, target, r, own);
        if stopped {
          return;
        }
        left := left[..|left| - 1];
      }
    }

    /** Gives the file at `at` its new name, or merges it into the file that has it. */
    method MoveAt(at: nat, from: Path, target: Path, arrived: set<Path>, own: seq<EditedFile>) returns (r: set<Path>)
      requires !stopped && at < |files|
      modifies this`files, this`stopped
      ensures Moves(files, r, stopped) == MovedOne(order, old(files), at, from, target, own, arrived)
    {
      r := arrived;
      var path := NewPath(files[at].path, from, target);
      if path.None? {
        stopped := true;
        return;
      }
      var found := FirstAt(files, path.value);
      if found == |files| {
        files := RenamedAt(files, at, path.value, Marked(own, path.value));
        r := r + {path.value};
      } else {
        var merged := MergedFile(order, files[found], files[at], Marked(own, path.value));
        var (first, last) := if at < found then (at, found) else (found, at);
        if first == |files| - 1 {
          stopped := true;
          return;
        }
        files := Without(files, last);
        files := files[first := merged];
      }
    }
  }
}
