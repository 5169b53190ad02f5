/**
 Which files a changed-file list shows (crates/agent-store/src/changes.rs): the calls it follows, and of the
 files as they stand after them those that are not outside.
 */
module ListedFiles {
  import opened Wrappers
  import opened Paths
  import opened FileTracking
  import opened ChangedLists

  // The files a list shows.

  /** A list's entry for a tracked file: its path, old name and edits, and what became of it. */
  ghost predicate ShowsFile(file: Tracked, shown: ChangedFile) {
    && shown.path == file.path && shown.from == file.from && shown.edits == file.edits
    && (shown.kind.Deleted? <==> file.removed)
    && (shown.kind.Added? <==> !file.removed && !file.existed)
    && (shown.kind.Renamed? <==> !file.removed && file.existed && file.from.Some?)
    && (shown.kind.Modified? <==> !file.removed && file.existed && file.from.None?)
  }

  ghost predicate Ascends(at: seq<nat>) {
    forall i, j :: 0 <= i < j < |at| ==> at[i] < at[j]
  }

  /** `at` are the positions of the files that are not outside, in order. */
  ghost predicate Inside(files: seq<Tracked>, at: seq<nat>) {
    Ascends(at) && forall k: nat :: k in at <==> k < |files| && !files[k].outside
  }

  /** The list shows exactly the files not outside, in their order. */
  ghost predicate ShowsTheInside(files: seq<Tracked>, list: seq<ChangedFile>) {
    exists at: seq<nat> :: Inside(files, at) && ShowsAt(files, at, list)
  }

  ghost predicate ShowsAt(files: seq<Tracked>, at: seq<nat>, list: seq<ChangedFile>) {
    |at| == |list| && forall i :: 0 <= i < |at| ==> at[i] < |files| && ShowsFile(files[at[i]], list[i])
  }

  lemma {:induction false} OneMoreIsShown(
      files: seq<Tracked>, at: seq<nat>, list: seq<ChangedFile>, last: Tracked, shown: ChangedFile)
    requires Inside(files, at) && ShowsAt(files, at, list)
    ensures last.outside ==> Inside(files + [last], at) && ShowsAt(files + [last], at, list)
    ensures !last.outside && ShowsFile(last, shown) ==>
              Inside(files + [last], at + [|files|]) && ShowsAt(files + [last], at + [|files|], list + [shown])
  {
    var all := files + [last];
    assert forall k :: 0 <= k < |files| ==> all[k] == files[k];
    assert forall i :: 0 <= i < |at| ==> at[i] in at;
  }

  lemma {:induction false} AListShowsTheInside(files: seq<Tracked>) returns (at: seq<nat>)
    ensures Inside(files, at) && ShowsAt(files, at, Listed(files))
  {
    at := [];
    if files != [] {
      var (before, last) := (files[..|files| - 1], files[|files| - 1]);
      at := AListShowsTheInside(before);
      assert files == before + [last];
      OneMoreIsShown(before, at, Listed(before), last, ChangedFile(last.path, last.Kind(), last.from, last.edits));
      if !last.outside { at := at + [|before|]; }
    }
  }

  /** A path is listed exactly when a tracked file there is not outside. */
  lemma {:induction false} APathIsShownExactlyWhen(files: seq<Tracked>, list: seq<ChangedFile>, path: Path)
    requires ShowsTheInside(files, list)
    ensures (exists i :: 0 <= i < |list| && list[i].path == path)
            <==> exists k :: 0 <= k < |files| && files[k].path == path && !files[k].outside
  {
    var at: seq<nat> :| Inside(files, at) && ShowsAt(files, at, list);
    if i :| 0 <= i < |list| && list[i].path == path {
      assert at[i] in at;
    }
    if k: nat :| k < |files| && files[k].path == path && !files[k].outside {
      assert k in at;
      var i :| 0 <= i < |at| && at[i] == k;
      assert list[i].path == path;
    }
  }

  // The calls a list follows.

  /** A shell call that returned, of the run when one is given. */
  ghost predicate IsFollowed(entry: Entry, run: Option<nat>) {
    entry.ShellCall? && entry.view.Some? && (run.Some? ==> entry.run == run.value)
  }

  /** What the job wrote: of its files the added and the modified, in order, with their edits. */
  ghost predicate IsReportOf(files: seq<EditedFile>, report: seq<Written>) {
    exists at: seq<nat> :: ReportedAt(files, at, report)
  }

  ghost predicate ReportedAt(files: seq<EditedFile>, at: seq<nat>, report: seq<Written>) {
    && Ascends(at) && (forall k: nat :: k in at <==> k < |files| && (files[k].kind.Added? || files[k].kind.Modified?))
    && |at| == |report|
    && forall i :: 0 <= i < |at| ==>
                     && at[i] < |files| && report[i].path == files[at[i]].path && report[i].edits == files[at[i]].edits
                     && (report[i].modified <==> files[at[i]].kind.Modified?)
  }

  lemma {:induction false} AReportIsOfTheWritten(files: seq<EditedFile>) returns (at: seq<nat>)
    ensures ReportedAt(files, at, Reported(files))
  {
    if files == [] {
      at := [];
    } else {
      var last := |files| - 1;
      at := AReportIsOfTheWritten(files[..last]);
      assert forall k :: 0 <= k < last ==> files[..last][k] == files[k];
      if IsWritten(files[last]) {
        OneMorePosition(at, last);
        at := at + [last];
      }
    }
  }

  /** The work of a call, by the files and changes its view holds. */
  ghost predicate IsWorkOf(call: Call, view: View, own: seq<EditedFile>) {
    call.id == view.command && call.changes == view.changes && call.own == own && IsReportOf(view.files, call.report)
  }

  lemma {:induction false} ACallIsItsWork(view: View, own: seq<EditedFile>)
    ensures IsWorkOf(CallOf(view, own), view, own)
  {
    var at := AReportIsOfTheWritten(view.files);
  }

  /** `at` are the positions from `from` up to `index` of the calls that are followed, in order. */
  ghost predicate FollowedAt(blocks: seq<Entry>, from: nat, index: nat, run: Option<nat>, at: seq<nat>)
    requires index <= |blocks|
  {
    Ascends(at) && forall k: nat :: k in at <==> from <= k < index && IsFollowed(blocks[k], run)
  }

  ghost predicate WorkAt(blocks: seq<Entry>, at: seq<nat>, calls: seq<Call>) {
    && |at| == |calls|
    && forall i :: 0 <= i < |at| ==>
                     && at[i] < |blocks| && blocks[at[i]].ShellCall? && blocks[at[i]].view.Some?
                     && IsWorkOf(calls[i], blocks[at[i]].view.value, blocks[at[i]].view.value.files)
  }

  lemma {:induction false} OneMorePosition(at: seq<nat>, last: nat)
    requires Ascends(at) && forall k :: k in at ==> k < last
    ensures Ascends(at + [last]) && forall k :: k in at + [last] <==> k in at || k == last
  {
    assert forall i :: 0 <= i < |at| ==> at[i] in at;
  }

  lemma {:induction false} TheCallsBefore(
      blocks: seq<Entry>, from: nat, index: nat, run: Option<nat>) returns (at: seq<nat>)
    requires from <= index <= |blocks|
    ensures FollowedAt(blocks, from, index, run, at) && WorkAt(blocks, at, CallsBefore(blocks, from, index, run))
    decreases index
  {
    if index == from {
      at := [];
    } else {
      at := TheCallsBefore(blocks, from, index - 1, run);
      if IsFollowed(blocks[index - 1], run) {
        OneMorePosition(at, index - 1);
        ACallIsItsWork(blocks[index - 1].view.value, blocks[index - 1].view.value.files);
        at := at + [index - 1];
      }
    }
  }

  /** The list of the calls at `at` and then of the call with `view`, whose own files are `own`. */
  ghost predicate ListsTheCalls(
      blocks: seq<Entry>, at: seq<nat>, view: View, own: seq<EditedFile>, list: seq<ChangedFile>) {
    exists calls: seq<Call> ::
      calls != [] && WorkAt(blocks, at, calls[..|calls| - 1]) && IsWorkOf(calls[|calls| - 1], view, own)
      && ShowsTheInside(Followed(calls).files, list)
  }

  lemma {:induction false} AListOfCalls(
      blocks: seq<Entry>, at: seq<nat>, before: seq<Call>, view: View, own: seq<EditedFile>)
    requires WorkAt(blocks, at, before)
    ensures ListsTheCalls(blocks, at, view, own, Listed(Followed(before + [CallOf(view, own)]).files))
  {
    var calls := before + [CallOf(view, own)];
    assert calls[..|calls| - 1] == before;
    ACallIsItsWork(view, own);
    var inside := AListShowsTheInside(Followed(calls).files);
    assert ShowsTheInside(Followed(calls).files, Listed(Followed(calls).files));
  }

  /** The block that began the request of the one at `index`. */
  ghost predicate BeginsTheRequest(blocks: seq<Entry>, index: nat, start: nat)
    requires index <= |blocks|
  {
    start < index && blocks[start].Message? && forall k :: start < k < index ==> !blocks[k].Message?
  }

  /** A call's lists: its run's and its request's show exactly the files not outside once the calls that returned
      before it in its request, those of its run or all of them, and the call itself are followed. Before the
      first request there is no request list. */
  ghost predicate IsPlanned(blocks: seq<Entry>, index: nat, view: View, planned: Planned)
    requires index < |blocks| && blocks[index].ShellCall?
  {
    match planned.request
    case Some(list) =>
      exists start: nat, run: seq<nat>, request: seq<nat> ::
        && BeginsTheRequest(blocks, index, start)
        && FollowedAt(blocks, start, index, Some(blocks[index].run), run)
        && FollowedAt(blocks, start, index, None, request)
        && ListsTheCalls(blocks, run, view, planned.files, planned.run)
        && ListsTheCalls(blocks, request, view, planned.files, list)
    case None =>
      && (forall k :: 0 <= k < index ==> !blocks[k].Message?)
      && exists run: seq<nat> ::
           && FollowedAt(blocks, 0, index, Some(blocks[index].run), run)
           && ListsTheCalls(blocks, run, view, planned.files, planned.run)
  }

  /** A plan shows the files inside, and no other. */
  lemma {:induction false} APlanShowsTheFilesInside(
      blocks: seq<Entry>, index: nat, view: View, directory: Option<Directory>)
    requires index < |blocks| && blocks[index].ShellCall?
    ensures IsPlanned(blocks, index, view, Plan(blocks, index, view, directory))
  {
    var start := RequestStart(blocks, index);
    var from := if start.Some? then start.value else 0;
    var own := CallFiles(view, directory);
    var run := TheCallsBefore(blocks, from, index, Some(blocks[index].run));
    AListOfCalls(blocks, run, CallsBefore(blocks, from, index, Some(blocks[index].run)), view, own);
    if start.Some? {
      var request := TheCallsBefore(blocks, from, index, None);
      AListOfCalls(blocks, request, CallsBefore(blocks, from, index, None), view, own);
      assert BeginsTheRequest(blocks, index, from);
    }
  }

  // One call.

  ghost predicate TracksPath(files: seq<Tracked>, path: Path) {
    exists k :: 0 <= k < |files| && files[k].path == path
  }

  ghost predicate WritesPath(report: seq<Written>, path: Path) {
    exists j :: 0 <= j < |report| && report[j].path == path
  }

  ghost predicate DistinctPaths(files: seq<Tracked>) {
    forall j, k :: 0 <= j < k < |files| ==> files[j].path != files[k].path
  }

  /** Each file is there, was never renamed, and is marked by the call's own files. */
  ghost predicate MarkedBy(files: seq<Tracked>, own: seq<EditedFile>) {
    forall k :: 0 <= k < |files| ==>
                  files[k].outside == Marked(own, files[k].path) && !files[k].removed && files[k].from.None?
  }

  /** What a call that only wrote leaves of the files: one at each path it wrote. */
  ghost predicate TracksTheWritten(files: seq<Tracked>, report: seq<Written>, own: seq<EditedFile>) {
    && DistinctPaths(files) && MarkedBy(files, own)
    && forall path :: TracksPath(files, path) <==> WritesPath(report, path)
  }

  lemma {:induction false} OneMorePath(report: seq<Written>, last: Written, path: Path)
    ensures WritesPath(report + [last], path) <==> WritesPath(report, path) || path == last.path
  {
    var all := report + [last];
    if j :| 0 <= j < |report| && report[j].path == path { assert all[j].path == path; }
    if j :| 0 <= j < |all| && all[j].path == path { assert j < |report| ==> report[j].path == path; }
    assert all[|report|] == last;
  }

  lemma {:induction false} AWriteTracksItsPath(
      files: seq<Tracked>, call: CommandId, file: Written, own: seq<EditedFile>, path: Path)
    ensures TracksPath(AfterWrite(files, call, file, own, {}), path) <==> TracksPath(files, path) || path == file.path
  {
    var (found, after) := (FirstAt(files, file.path), AfterWrite(files, call, file, own, {}));
    assert after[found].path == file.path;
    forall k | 0 <= k < |files| ensures after[k].path == files[k].path { }
    if k :| 0 <= k < |files| && files[k].path == path { assert after[k].path == path; }
    if k :| 0 <= k < |after| && after[k].path == path { assert k < |files| ==> files[k].path == path; }
  }

  lemma {:induction false} AWriteMarksItsFile(files: seq<Tracked>, call: CommandId, file: Written, own: seq<EditedFile>)
    requires DistinctPaths(files) && MarkedBy(files, own)
    ensures DistinctPaths(AfterWrite(files, call, file, own, {})) && MarkedBy(AfterWrite(files, call, file, own, {}), own)
  {
  }

  lemma {:induction false} WritesTrackEachPath(call: CommandId, report: seq<Written>, own: seq<EditedFile>)
    ensures TracksTheWritten(AfterWrites([], call, report, own, {}), report, own)
  {
    if report != [] {
      var (before, last) := (report[..|report| - 1], report[|report| - 1]);
      WritesTrackEachPath(call, before, own);
      var files := AfterWrites([], call, before, own, {});
      AWriteMarksItsFile(files, call, last, own);
      forall path ensures TracksPath(AfterWrite(files, call, last, own, {}), path) <==> WritesPath(report, path) {
        AWriteTracksItsPath(files, call, last, own, path);
        OneMorePath(before, last, path);
        assert before + [last] == report;
      }
    }
  }

  /** Paths as a job names them: none ends with a separator. */
  ghost predicate AreTrimmed(files: seq<EditedFile>) {
    forall file :: file in files ==> Trimmed(file.path) == file.path
  }

  lemma {:induction false} AFileIsNearestItself(own: seq<EditedFile>, file: EditedFile)
    requires file in own && AreTrimmed(own)
    ensures Nearest(own, file.path).Some? && Nearest(own, file.path).value.path == file.path
  {
    var nearest := Nearest(own, file.path).value;
    assert IsWithin(file.path, file.path);
    assert |file.path| <= |nearest.path| && Trimmed(nearest.path) == nearest.path;
  }

  lemma {:induction false} ReportedAreWritten(files: seq<EditedFile>, path: Path)
    ensures (exists j :: 0 <= j < |Reported(files)| && Reported(files)[j].path == path)
            <==> exists k :: 0 <= k < |files| && IsWritten(files[k]) && files[k].path == path
    ensures (exists j :: 0 <= j < |WrittenFiles(files)| && WrittenFiles(files)[j].path == path)
            <==> exists k :: 0 <= k < |files| && IsWritten(files[k]) && files[k].path == path
    ensures forall file :: file in WrittenFiles(files) ==> file in files
  {
    if files != [] {
      var (before, last) := (files[..|files| - 1], files[|files| - 1]);
      ReportedAreWritten(before, path);
      assert files == before + [last];
      if k :| 0 <= k < |before| && IsWritten(before[k]) && before[k].path == path {
        assert files[k] == before[k];
      }
      if IsWritten(last) && last.path == path {
        assert Reported(files)[|Reported(before)|].path == path;
        assert WrittenFiles(files)[|WrittenFiles(before)|].path == path;
      }
      if j :| 0 <= j < |Reported(before)| && Reported(before)[j].path == path {
        assert Reported(files)[j].path == path;
      }
      if j :| 0 <= j < |WrittenFiles(before)| && WrittenFiles(before)[j].path == path {
        assert WrittenFiles(files)[j].path == path;
      }
    }
  }

  /** The files a call wrote and nothing else. */
  ghost predicate OnlyWrites(view: View) {
    view.changes == [] && forall file :: file in view.files ==> Trimmed(file.path) == file.path
  }

  lemma {:induction false} TheOwnMarks(view: View, inside: Directory, path: Path)
    requires OnlyWrites(view)
    requires exists k :: 0 <= k < |view.files| && IsWritten(view.files[k]) && view.files[k].path == path
    ensures Marked(CallFiles(view, Some(inside)), path) == !inside(path)
  {
    var (written, own) := (WrittenFiles(view.files), CallFiles(view, Some(inside)));
    ReportedAreWritten(view.files, path);
    assert WithChanges(written, []) == written;
    var j :| 0 <= j < |written| && written[j].path == path;
    assert own[j].path == path && own[j].outside == !inside(path);
    forall file | file in own ensures Trimmed(file.path) == file.path && file.outside == !inside(file.path) {
      var k :| 0 <= k < |own| && own[k] == file;
      assert written[k] in written && own[k].path == written[k].path;
    }
    AFileIsNearestItself(own, own[j]);
  }

  /** The files as one call's writes leave them are followed with no other call. */
  lemma {:induction false} OneCallIsFollowed(call: Call)
    requires call.changes == []
    ensures Followed([call]).files == AfterWrites([], call.id, call.report, call.own, {})
  {
    assert [call][..0] == [];
  }

  /** A call that alone is followed and only wrote files lists a path exactly when it wrote a file there and the
      path is inside its directory. */
  lemma {:induction false} AWrittenFileIsListedExactlyWhenInside(
      blocks: seq<Entry>, index: nat, view: View, inside: Directory, path: Path)
    requires index < |blocks| && blocks[index].ShellCall? && OnlyWrites(view)
    requires forall k :: 0 <= k < index ==> !blocks[k].ShellCall?
    ensures var run := Plan(blocks, index, view, Some(inside)).run;
            (exists i :: 0 <= i < |run| && run[i].path == path)
            <==> inside(path) && exists k :: 0 <= k < |view.files| && IsWritten(view.files[k]) && view.files[k].path == path
  {
    var own := CallFiles(view, Some(inside));
    var start := RequestStart(blocks, index);
    var from := if start.Some? then start.value else 0;
    NoCallBefore(blocks, from, index, Some(blocks[index].run));
    var call := CallOf(view, own);
    assert [] + [call] == [call];
    OneCallIsFollowed(call);
    var files := AfterWrites([], call.id, call.report, own, {});
    WritesTrackEachPath(call.id, call.report, own);
    var at := AListShowsTheInside(files);
    APathIsShownExactlyWhen(files, Listed(files), path);
    ReportedAreWritten(view.files, path);
    ATrackedPathIsInsideExactlyWhen(files, call.report, view, inside, path);
  }

  lemma {:induction false} ATrackedPathIsInsideExactlyWhen(
      files: seq<Tracked>, report: seq<Written>, view: View, inside: Directory, path: Path)
    requires OnlyWrites(view) && report == Reported(view.files)
    requires TracksTheWritten(files, report, CallFiles(view, Some(inside)))
    ensures (exists k :: 0 <= k < |files| && files[k].path == path && !files[k].outside)
            <==> inside(path) && exists j :: 0 <= j < |report| && report[j].path == path
  {
    ReportedAreWritten(view.files, path);
    assert TracksPath(files, path) <==> WritesPath(report, path);
    if WritesPath(report, path) {
      TheOwnMarks(view, inside, path);
      var k :| 0 <= k < |files| && files[k].path == path;
      assert files[k].outside == !inside(path);
    }
  }

  lemma {:induction false} NoCallBefore(blocks: seq<Entry>, from: nat, index: nat, run: Option<nat>)
    requires from <= index <= |blocks| && forall k :: 0 <= k < index ==> !blocks[k].ShellCall?
    ensures CallsBefore(blocks, from, index, run) == []
    decreases index
  {
    if from < index {
      NoCallBefore(blocks, from, index - 1, run);
    }
  }

  // A call's own files.

  lemma {:induction false} OtherPathsStay(files: seq<EditedFile>, path: Path, other: Path)
    requires other != path
    ensures OnlyAt(NotAt(files, path), other) == OnlyAt(files, other)
  {
    if files != [] {
      var (before, last) := (files[..|files| - 1], files[|files| - 1]);
      OtherPathsStay(before, path, other);
      if last.path != path {
        var kept := NotAt(before, path) + [last];
        assert kept[..|kept| - 1] == NotAt(before, path);
      }
    }
  }

  /** The entries at one path. */
  function OnlyAt(files: seq<EditedFile>, path: Path): seq<EditedFile> {
    if files == [] then []
    else
      OnlyAt(files[..|files| - 1], path) + if files[|files| - 1].path == path then [files[|files| - 1]] else []
  }

  lemma {:induction false} OneMoreAt(files: seq<EditedFile>, file: EditedFile, path: Path)
    ensures OnlyAt(files + [file], path) == OnlyAt(files, path) + if file.path == path then [file] else []
  {
    assert (files + [file])[..|files|] == files;
  }

  /** The path's last change, as the entry it makes. */
  function LastChangeTo(changes: seq<PathChange>, path: Path): seq<EditedFile> {
    if changes == [] then []
    else if ChangedTo(changes[|changes| - 1]).path == path then [ChangedTo(changes[|changes| - 1])]
    else LastChangeTo(changes[..|changes| - 1], path)
  }

  /** A call's own files hold, at each path, what the job wrote there, and at a path it did not write, the last
      of its changes that names it. */
  lemma {:induction false} EachPathIsWhereItEndedUp(written: seq<EditedFile>, changes: seq<PathChange>, path: Path)
    ensures OnlyAt(WithChanges(written, changes), path)
            == if Names(written, path) then OnlyAt(written, path) else OnlyAt(written, path) + LastChangeTo(changes, path)
  {
    if changes != [] {
      var (before, last) := (changes[..|changes| - 1], changes[|changes| - 1]);
      EachPathIsWhereItEndedUp(written, before, path);
      var (files, file) := (WithChanges(written, before), ChangedTo(last));
      assert files[..|written|] == written;
      if !Names(written, file.path) {
        OneMoreAt(NotAt(files, file.path), file, path);
        if file.path != path {
          OtherPathsStay(files, file.path, path);
        } else {
          NoneIsLeftAt(files, path);
          NoneIsNamed(written, path);
        }
      }
    } else {
      assert OnlyAt(written, path) + [] == OnlyAt(written, path);
    }
  }

  lemma {:induction false} NoneIsLeftAt(files: seq<EditedFile>, path: Path)
    ensures OnlyAt(NotAt(files, path), path) == []
  {
    if files != [] {
      NoneIsLeftAt(files[..|files| - 1], path);
      var kept := NotAt(files, path);
      if files[|files| - 1].path != path { assert kept[..|kept| - 1] == NotAt(files[..|files| - 1], path); }
    }
  }

  lemma {:induction false} NoneIsNamed(files: seq<EditedFile>, path: Path)
    requires !Names(files, path)
    ensures OnlyAt(files, path) == []
  {
    if files != [] {
      assert files[|files| - 1].path != path;
      assert forall k :: 0 <= k < |files| - 1 ==> files[..|files| - 1][k] == files[k];
      NoneIsNamed(files[..|files| - 1], path);
    }
  }

  /** Where a change leaves a file: a removed path itself, or the new name of a renamed one. */
  ghost predicate EndsUpAt(change: PathChange, path: Path) {
    match change
    case Removed(removed) => path == Stripped(removed)
    case Moved(_, target) => path == target
  }

  ghost predicate SaysWhere(change: PathChange, file: EditedFile) {
    EndsUpAt(change, file.path) && file.edits == []
    && match change
       case Removed(_) => file.kind.Deleted? && file.from.None?
       case Moved(from, _) => file.kind.Renamed? && file.from == Some(from)
  }

  lemma {:induction false} TheLastChangeIsThat(changes: seq<PathChange>, path: Path, k: nat)
    requires k < |changes| && EndsUpAt(changes[k], path)
    requires forall j :: k < j < |changes| ==> !EndsUpAt(changes[j], path)
    ensures LastChangeTo(changes, path) == [ChangedTo(changes[k])] && SaysWhere(changes[k], ChangedTo(changes[k]))
  {
    if k < |changes| - 1 {
      var before := changes[..|changes| - 1];
      assert forall j :: 0 <= j < |before| ==> before[j] == changes[j];
      TheLastChangeIsThat(before, path, k);
    }
  }

  lemma {:induction false} NothingIsAt(files: seq<EditedFile>, path: Path)
    requires !Names(files, path)
    ensures OnlyAt(files, path) == []
  {
    if files != [] {
      var before := files[..|files| - 1];
      forall k | 0 <= k < |before| ensures before[k].path != path { assert before[k] == files[k]; }
      NothingIsAt(before, path);
    }
  }

  /** A path the job did not write is one of the call's own files as the last change that ends there says: removed, or
      renamed from where it was. */
  lemma {:induction false} AnUnwrittenPathIsWhereItsLastChangeSays(
      written: seq<EditedFile>, changes: seq<PathChange>, path: Path, k: nat) returns (file: EditedFile)
    requires !Names(written, path) && k < |changes| && EndsUpAt(changes[k], path)
    requires forall j :: k < j < |changes| ==> !EndsUpAt(changes[j], path)
    ensures OnlyAt(WithChanges(written, changes), path) == [file] && SaysWhere(changes[k], file)
  {
    file := ChangedTo(changes[k]);
    EachPathIsWhereItEndedUp(written, changes, path);
    NothingIsAt(written, path);
    TheLastChangeIsThat(changes, path, k);
  }
}
