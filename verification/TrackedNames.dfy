/**
 Under which name a list shows a file, and what became of it (crates/agent-store/src/changes.rs): through renames,
 removals and writes a file keeps the name it first had.
 */
module TrackedNames {
  import opened Wrappers
  import opened Paths
  import opened FileTracking

  /** The name the file had before the list's calls. */
  function FirstName(file: Tracked): Path {
    if file.from.Some? then file.from.value else file.path
  }

  /** The file as it is once it is at `path`: it has its edits, and one that was there before the calls has its first
      name, which is shown unless it is back there. */
  ghost predicate IsRenamed(file: Tracked, path: Path, outside: bool, after: Tracked) {
    && after.path == path && after.edits == file.edits && after.existed == file.existed && after.removed == file.removed
    && after.outside == outside
    && (file.existed ==> FirstName(after) == FirstName(file) && (after.from.Some? <==> FirstName(file) != path))
    && (!file.existed ==> after.from == file.from)
  }

  /** The file is there again and joined by the edits of the one it replaced or was replaced by. */
  ghost predicate IsJoined(order: Order, file: Tracked, other: Tracked, outside: bool, after: Tracked) {
    && after.path == file.path && after.from == file.from && after.existed == file.existed && !after.removed
    && after.outside == outside && after.edits == InCallOrder(order, file.edits + other.edits)
  }

  /** The file at `at` took the name that none had. */
  ghost predicate TakesTheName(
      files: seq<Tracked>, at: nat, path: Path, outside: bool, arrived: set<Path>, after: Moves)
    requires at < |files|
  {
    && !after.stopped && |after.files| == |files| && after.arrived == arrived + {path}
    && IsRenamed(files[at], path, outside, after.files[at])
    && forall k :: 0 <= k < |files| && k != at ==> after.files[k] == files[k]
  }

  lemma {:induction false} AFreeNameIsTaken(files: seq<Tracked>, at: nat, path: Path, outside: bool, arrived: set<Path>)
    requires at < |files|
    ensures TakesTheName(files, at, path, outside, arrived,
                         Moves(RenamedAt(files, at, path, outside), arrived + {path}, false))
  {
  }

  lemma {:induction false} OthersStay(files: seq<Tracked>, first: nat, last: nat, file: Tracked)
    requires first < last < |files|
    ensures var after := Without(files, last)[first := file];
            && |after| == |files| - 1 && after[first] == file
            && forall k :: 0 <= k < |files| && k != first && k != last ==> after[if k < last then k else k - 1] == files[k]
  {
    assert forall k :: last < k < |files| ==> Without(files, last)[k - 1] == files[k];
  }

  lemma {:induction false} ANameIsShared(order: Order, files: seq<Tracked>, at: nat, other: nat, path: Path, outside: bool)
    requires at < |files| && other < |files| && other != at && files[other].path == path
    requires forall k :: 0 <= k < other ==> files[k].path != path
    ensures JoinsAt(order, files, at, other, path, outside, MergedInto(order, files, at, other, outside))
  {
    var merged := MergedFile(order, files[other], files[at], outside);
    assert IsJoined(order, files[other], files[at], outside, merged);
    if at < other {
      OthersStay(files, at, other, merged);
    } else {
      OthersStay(files, other, at, merged);
    }
  }

  /** A rename of one file: it takes its new name when no file has it, and else joins the first that does, which
      stays under that name in the earlier place of the two. */
  lemma {:induction false} AMovedFileKeepsItsFirstName(
      order: Order, files: seq<Tracked>, at: nat, from: Path, target: Path, own: seq<EditedFile>, arrived: set<Path>,
      path: Path) returns (other: nat)
    requires at < |files| && NewPath(files[at].path, from, target) == Some(path) && path != files[at].path
    ensures var (after, outside) := (MovedOne(order, files, at, from, target, own, arrived), Marked(own, path));
            if forall k :: 0 <= k < |files| ==> files[k].path != path
            then TakesTheName(files, at, path, outside, arrived, after)
            else !after.stopped && after.arrived == arrived && JoinsAt(order, files, at, other, path, outside, after.files)
  {
    other := FirstAt(files, path);
    if other == |files| {
      AFreeNameIsTaken(files, at, path, Marked(own, path), arrived);
    } else {
      ANameIsShared(order, files, at, other, path, Marked(own, path));
    }
  }

  /** The file at `at` joined the one at `other`, the first of that path. */
  ghost predicate JoinsAt(
      order: Order, files: seq<Tracked>, at: nat, other: nat, path: Path, outside: bool, after: seq<Tracked>)
    requires at < |files|
  {
    && other < |files| && other != at && files[other].path == path && (forall k :: 0 <= k < other ==> files[k].path != path)
    && |after| == |files| - 1
    && var (first, last) := if at < other then (at, other) else (other, at);
    && IsJoined(order, files[other], files[at], outside, after[first])
    && forall k :: 0 <= k < |files| && k != at && k != other ==> after[if k < last then k else k - 1] == files[k]
  }

  /** The new path: the old one's part before `rest` replaced. */
  lemma {:induction false} ANewPathKeepsTheRest(was: Path, from: Path, target: Path, rest: Path)
    requires was == Stripped(from) + rest && IsBoundary(was, |Stripped(from)|)
    ensures NewPath(was, from, target) == Some(target + rest)
  {
  }

  /** A rename of a path the list does not hold is listed under its new name, unless the list holds that one. */
  lemma {:induction false} AnUnknownPathIsListedRenamed(
      order: Order, files: seq<Tracked>, from: Path, target: Path, own: seq<EditedFile>, arrived: set<Path>)
    requires forall k :: 0 <= k < |files| ==> files[k].removed || !IsWithin(files[k].path, from)
    ensures var after := AfterRename(order, files, from, target, own, arrived);
            && !after.stopped
            && if exists k :: 0 <= k < |files| && files[k].path == target then after.files == files && after.arrived == arrived
               else
                 && |after.files| == |files| + 1 && after.files[..|files|] == files && after.arrived == arrived + {target}
                 && var file := after.files[|files|];
                 && file.path == target && file.from == Some(from) && file.existed && !file.removed && file.edits == []
                 && file.outside == Marked(own, target)
  {
    var moved := MovedBy(files, from);
    var first := if moved == [] then 0 else moved[0];
    assert first < |files| ==> files[first].removed || !IsWithin(files[first].path, from);
  }

  // A removal.

  /** A file that was there before is shown deleted, under its first name. */
  ghost predicate IsDeleted(file: Tracked, outside: bool, after: Tracked) {
    && after.path == FirstName(file) && after.from.None? && after.existed == file.existed && after.removed
    && after.outside == outside && after.edits == file.edits
  }

  ghost predicate Ascends(at: seq<nat>) {
    forall i, j :: 0 <= i < j < |at| ==> at[i] < at[j]
  }

  /** The files at `at` are all but those in the path that the calls created, and stand after a removal as they
      should. */
  ghost predicate Remain(files: seq<Tracked>, path: Path, outside: bool, at: seq<nat>, after: seq<Tracked>) {
    && Ascends(at) && |at| == |after|
    && (forall k: nat :: k in at <==> k < |files| && (IsWithin(files[k].path, path) ==> files[k].existed))
    && forall i :: 0 <= i < |at| ==>
                     && at[i] < |files|
                     && if IsWithin(files[at[i]].path, path) then IsDeleted(files[at[i]], outside, after[i])
                        else after[i] == files[at[i]]
  }

  lemma {:induction false} OneMoreRemains(
      files: seq<Tracked>, path: Path, outside: bool, at: seq<nat>, after: seq<Tracked>, file: Tracked, kept: Tracked)
    requires Remain(files, path, outside, at, after)
    ensures IsWithin(file.path, path) && !file.existed ==> Remain(files + [file], path, outside, at, after)
    ensures (IsWithin(file.path, path) ==> file.existed)
            && (if IsWithin(file.path, path) then IsDeleted(file, outside, kept) else kept == file) ==>
              Remain(files + [file], path, outside, at + [|files|], after + [kept])
  {
    var all := files + [file];
    assert forall k :: 0 <= k < |files| ==> all[k] == files[k];
    assert forall i :: 0 <= i < |at| ==> at[i] in at;
  }

  lemma {:induction false} TheRestRemains(files: seq<Tracked>, path: Path, outside: bool) returns (at: seq<nat>)
    ensures Remain(files, path, outside, at, RemovedIn(files, path, outside))
  {
    at := [];
    if files != [] {
      var (before, last) := (files[..|files| - 1], files[|files| - 1]);
      at := TheRestRemains(before, path, outside);
      assert files == before + [last];
      var kept := if IsWithin(last.path, path) then RemovedFile(last, outside) else last;
      OneMoreRemains(before, path, outside, at, RemovedIn(before, path, outside), last, kept);
      if !IsWithin(last.path, path) || last.existed { at := at + [|before|]; }
    }
  }

  /** After a removal the files in the path that the calls created are gone, the others are shown deleted under their
      first names, and a path that held none is shown deleted itself. */
  lemma {:induction false} ARemovalDeletes(files: seq<Tracked>, path: Path, own: seq<EditedFile>) returns (at: seq<nat>)
    ensures var (after, outside) := (AfterRemoval(files, path, own), Marked(own, Stripped(path)));
            if exists k :: 0 <= k < |files| && IsWithin(files[k].path, path) then Remain(files, path, outside, at, after)
            else after == files + [Tracked(Stripped(path), true, true, None, outside, [])]
  {
    at := TheRestRemains(files, path, Marked(own, Stripped(path)));
    if !HoldsWithin(files, path) { NothingIsRemoved(files, path, Marked(own, Stripped(path))); }
  }

  lemma {:induction false} NothingIsRemoved(files: seq<Tracked>, path: Path, outside: bool)
    requires !HoldsWithin(files, path)
    ensures RemovedIn(files, path, outside) == files
  {
    if files != [] {
      var before := files[..|files| - 1];
      assert forall k :: 0 <= k < |before| ==> before[k] == files[k];
      NothingIsRemoved(before, path, outside);
      assert !IsWithin(files[|files| - 1].path, path);
      assert RemovedIn(files, path, outside) == before + [files[|files| - 1]];
    }
  }

  // A write.

  /** A file at a path that was written is there; its job says whether it was before, when the list did not hold it,
      or when a rename of this call brought another file there, which it then replaced. */
  ghost predicate IsWritten(
      file: Option<Tracked>, call: CommandId, written: Written, outside: bool, arrived: set<Path>, after: Tracked) {
    && after.path == written.path && !after.removed && after.outside == outside
    && (after.existed <==> if file.None? then written.modified
                           else file.value.existed || (written.path in arrived && written.modified))
    && after.from == (if file.None? || (written.path in arrived && written.modified) then None else file.value.from)
    && var before := if file.None? then [] else file.value.edits;
    && |after.edits| == |before| + |written.edits| && before <= after.edits
    && forall i :: 0 <= i < |written.edits| ==>
                     && var edit := after.edits[|before| + i];
                     && edit.call == call && edit.path == written.path && edit.segment == i && edit.edit == written.edits[i]
                     && (edit.created <==> !written.modified && i == 0)
  }

  /** The file as a write leaves it. */
  function AsWritten(file: Tracked, call: CommandId, written: Written, outside: bool, replaced: bool): Tracked {
    Tracked(file.path, replaced || file.existed, false, if replaced then None else file.from, outside,
            file.edits + NewEdits(call, written))
  }

  lemma {:induction false} AsWrittenIsWritten(
      file: Tracked, call: CommandId, written: Written, outside: bool, arrived: set<Path>)
    requires file.path == written.path
    ensures var after := AsWritten(file, call, written, outside, written.path in arrived && written.modified);
            && IsWritten(Some(file), call, written, outside, arrived, after)
            && (file == Tracked(written.path, written.modified, false, None, false, []) ==>
                  IsWritten(None, call, written, outside, arrived, after))
  {
  }

  lemma {:induction false} TheFileWritten(
      files: seq<Tracked>, call: CommandId, written: Written, own: seq<EditedFile>, arrived: set<Path>)
    ensures var (at, after) := (FirstAt(files, written.path), AfterWrite(files, call, written, own, arrived));
            var file := if at < |files| then files[at] else Tracked(written.path, written.modified, false, None, false, []);
            var marked := Marked(own, written.path);
            && at < |after| && |after| == (if at == |files| then |files| + 1 else |files|)
            && after[at] == AsWritten(file, call, written, marked, written.path in arrived && written.modified)
            && forall k :: 0 <= k < |files| && k != at ==> after[k] == files[k]
  {
  }

  /** A write joins the first file of its path, or lists it, and changes no other. */
  lemma {:induction false} AWriteJoinsItsFile(
      files: seq<Tracked>, call: CommandId, written: Written, own: seq<EditedFile>, arrived: set<Path>) returns (at: nat)
    ensures var after := AfterWrite(files, call, written, own, arrived);
            && at < |after| && at <= |files| && (forall k :: 0 <= k < at ==> files[k].path != written.path)
            && |after| == (if at == |files| then |files| + 1 else |files|)
            && (at < |files| ==> files[at].path == written.path)
            && IsWritten(if at < |files| then Some(files[at]) else None, call, written, Marked(own, written.path), arrived,
                         after[at])
            && forall k :: 0 <= k < |files| && k != at ==> after[k] == files[k]
  {
    at := FirstAt(files, written.path);
    var file := if at < |files| then files[at] else Tracked(written.path, written.modified, false, None, false, []);
    TheFileWritten(files, call, written, own, arrived);
    AsWrittenIsWritten(file, call, written, Marked(own, written.path), arrived);
  }

  // Every run of calls.

  /** A file that is shown renamed was there before the calls, at another path. */
  ghost predicate RenamedElsewhere(files: seq<Tracked>) {
    forall k :: 0 <= k < |files| && files[k].from.Some? ==> files[k].existed && files[k].from.value != files[k].path
  }

  ghost predicate RenamesNothingToItself(changes: seq<PathChange>) {
    forall k :: 0 <= k < |changes| && changes[k].Moved? ==> changes[k].from != changes[k].target
  }

  lemma {:induction false} RemovalLeavesItElsewhere(files: seq<Tracked>, path: Path, outside: bool)
    requires RenamedElsewhere(files)
    ensures RenamedElsewhere(RemovedIn(files, path, outside))
  {
    if files != [] {
      var before := files[..|files| - 1];
      assert forall k :: 0 <= k < |before| ==> before[k] == files[k];
      RemovalLeavesItElsewhere(before, path, outside);
    }
  }

  lemma {:induction false} AMoveLeavesItElsewhere(
      order: Order, files: seq<Tracked>, at: nat, from: Path, target: Path, own: seq<EditedFile>, arrived: set<Path>)
    requires at < |files| && RenamedElsewhere(files)
    ensures RenamedElsewhere(MovedOne(order, files, at, from, target, own, arrived).files)
  {
  }

  lemma {:induction false} MovesLeaveItElsewhere(
      order: Order, files: seq<Tracked>, moved: seq<nat>, from: Path, target: Path, own: seq<EditedFile>, arrived: set<Path>)
    requires CanMove(files, moved) && RenamedElsewhere(files)
    ensures RenamedElsewhere(MovedEach(order, files, moved, from, target, own, arrived).files)
    decreases |moved|
  {
    if moved != [] {
      var at := moved[|moved| - 1];
      var one := MovedOne(order, files, at, from, target, own, arrived);
      AMoveLeavesItElsewhere(order, files, at, from, target, own, arrived);
      if !one.stopped { MovesLeaveItElsewhere(order, one.files, moved[..|moved| - 1], from, target, own, one.arrived); }
    }
  }

  lemma {:induction false} ChangesLeaveItElsewhere(
      order: Order, files: seq<Tracked>, changes: seq<PathChange>, own: seq<EditedFile>, arrived: set<Path>)
    requires RenamedElsewhere(files) && RenamesNothingToItself(changes)
    ensures RenamedElsewhere(AfterChanges(order, files, changes, own, arrived).files)
    decreases |changes|
  {
    if changes != [] {
      var rest := changes[1..];
      assert forall k :: 0 <= k < |rest| ==> rest[k] == changes[k + 1];
      match changes[0]
      case Removed(path) =>
        RemovalLeavesItElsewhere(files, path, Marked(own, Stripped(path)));
        ChangesLeaveItElsewhere(order, AfterRemoval(files, path, own), rest, own, arrived);
      case Moved(from, target) =>
        var renamed := AfterRename(order, files, from, target, own, arrived);
        MovesLeaveItElsewhere(order, files, MovedBy(files, from), from, target, own, arrived);
        if !renamed.stopped { ChangesLeaveItElsewhere(order, renamed.files, rest, own, renamed.arrived); }
    }
  }

  lemma {:induction false} WritesLeaveItElsewhere(
      files: seq<Tracked>, call: CommandId, report: seq<Written>, own: seq<EditedFile>, arrived: set<Path>)
    requires RenamedElsewhere(files)
    ensures RenamedElsewhere(AfterWrites(files, call, report, own, arrived))
  {
    if report != [] {
      WritesLeaveItElsewhere(files, call, report[..|report| - 1], own, arrived);
      var before := AfterWrites(files, call, report[..|report| - 1], own, arrived);
      var at := AWriteJoinsItsFile(before, call, report[|report| - 1], own, arrived);
    }
  }

  /** After any calls that rename no path to itself, a file that is shown renamed was there before them, at
      another path. */
  lemma {:induction false} EveryRunShowsOnlyRealRenames(calls: seq<Call>)
    requires forall k :: 0 <= k < |calls| ==> RenamesNothingToItself(calls[k].changes)
    ensures RenamedElsewhere(Followed(calls).files)
  {
    if calls != [] {
      var (before, last) := (calls[..|calls| - 1], calls[|calls| - 1]);
      assert forall k :: 0 <= k < |before| ==> before[k] == calls[k];
      EveryRunShowsOnlyRealRenames(before);
      var s := Followed(before);
      if !s.stopped {
        var order := Numbered(s.order, last.id);
        ChangesLeaveItElsewhere(order, s.files, last.changes, last.own, {});
        var moves := AfterChanges(order, s.files, last.changes, last.own, {});
        WritesLeaveItElsewhere(moves.files, last.id, last.report, last.own, moves.arrived);
      }
    }
  }
}
