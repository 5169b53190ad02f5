/**
 The changed-file lists of a transcript's shell calls (crates/agent-store/src/changes.rs), and how the
 calls of one step, which return in any order, come by them (crates/agent-session/src/turn.rs).
 */
module ChangedLists {
  import opened Wrappers
  import opened Paths
  import opened FileTracking

  /** What a shell call shows: what its job did, and its run's and its request's lists up to it. A call
      that has lists has its run's. */
  datatype View = View(command: CommandId, files: seq<EditedFile>, changes: seq<PathChange>,
                       runFiles: Option<seq<ChangedFile>>, requestFiles: Option<seq<ChangedFile>>)

  /** A transcript's blocks as the lists read them; a shell call has a view once it returned. */
  datatype Entry =
    | Message
    | ShellCall(run: nat, view: Option<View>)
    | Other

  /** The paths inside a call's working directory. */
  type Directory = Path -> bool

  // A call's own files.

  predicate IsWritten(file: EditedFile) {
    file.kind.Added? || file.kind.Modified?
  }

  function WrittenFiles(files: seq<EditedFile>): (written: seq<EditedFile>)
    ensures forall k :: 0 <= k < |written| ==> IsWritten(written[k])
  {
    if files == [] then []
    else
      var (before, last) := (WrittenFiles(files[..|files| - 1]), files[|files| - 1]);
      if IsWritten(last) then before + [last] else before
  }

  /** What the job reported of its own: the files it wrote. */
  function Reported(files: seq<EditedFile>): seq<Written> {
    if files == [] then []
    else
      var (before, last) := (Reported(files[..|files| - 1]), files[|files| - 1]);
      if IsWritten(last) then before + [Written(last.path, last.kind.Modified?, last.edits)] else before
  }

  function ChangedTo(change: PathChange): EditedFile {
    match change
    case Removed(path) => EditedFile(Stripped(path), Deleted, None, false, [])
    case Moved(from, target) => EditedFile(target, Renamed, Some(from), false, [])
  }

  predicate Names(files: seq<EditedFile>, path: Path) {
    exists k :: 0 <= k < |files| && files[k].path == path
  }

  function NotAt(files: seq<EditedFile>, path: Path): (rest: seq<EditedFile>)
    ensures forall file :: file in rest ==> file in files
  {
    if files == [] then []
    else
      var (before, last) := (NotAt(files[..|files| - 1], path), files[|files| - 1]);
      if last.path != path then before + [last] else before
  }

  /** A later change of a path the job did not write says where it ended up. */
  function WithChange(files: seq<EditedFile>, written: nat, change: PathChange): seq<EditedFile>
    requires written <= |files|
  {
    var file := ChangedTo(change);
    if Names(files[..written], file.path) then files else NotAt(files, file.path) + [file]
  }

  function WithChanges(written: seq<EditedFile>, changes: seq<PathChange>): (files: seq<EditedFile>)
    ensures written <= files
    ensures forall k :: |written| <= k < |files| ==> !IsWritten(files[k])
  {
    if changes == [] then written
    else
      var before := WithChanges(written, changes[..|changes| - 1]);
      ChangingKeepsTheWritten(before, |written|, changes[|changes| - 1]);
      WithChange(before, |written|, changes[|changes| - 1])
  }

  lemma {:induction false} NoneAt(files: seq<EditedFile>, path: Path)
    requires !Names(files, path)
    ensures NotAt(files, path) == files
  {
    if files != [] {
      var before := files[..|files| - 1];
      forall k | 0 <= k < |before| ensures before[k].path != path { assert before[k] == files[k]; }
      NoneAt(before, path);
    }
  }

  lemma {:induction false} NotAtOfBoth(a: seq<EditedFile>, b: seq<EditedFile>, path: Path)
    ensures NotAt(a + b, path) == NotAt(a, path) + NotAt(b, path)
  {
    if b == [] {
      assert a + b == a;
    } else {
      assert (a + b)[..|a + b| - 1] == a + b[..|b| - 1];
      NotAtOfBoth(a, b[..|b| - 1], path);
    }
  }

  lemma {:induction false} AChangeSparesTheWritten(files: seq<EditedFile>, written: nat, change: PathChange)
    requires written <= |files| && !Names(files[..written], ChangedTo(change).path)
    ensures WithChange(files, written, change)
            == files[..written] + NotAt(files[written..], ChangedTo(change).path) + [ChangedTo(change)]
  {
    var path := ChangedTo(change).path;
    NoneAt(files[..written], path);
    NotAtOfBoth(files[..written], files[written..], path);
    assert files == files[..written] + files[written..];
  }

  lemma {:induction false} ChangingKeepsTheWritten(files: seq<EditedFile>, written: nat, change: PathChange)
    requires written <= |files| && forall k :: written <= k < |files| ==> !IsWritten(files[k])
    ensures var after := WithChange(files, written, change);
            && written <= |after| && after[..written] == files[..written]
            && forall k :: written <= k < |after| ==> !IsWritten(after[k])
  {
    var path := ChangedTo(change).path;
    if !Names(files[..written], path) {
      AChangeSparesTheWritten(files, written, change);
      var rest := NotAt(files[written..], path);
      forall k | 0 <= k < |rest| ensures !IsWritten(rest[k]) {
        assert rest[k] in rest;
      }
    }
  }

  /** Whether a path is outside: judged against the directory, or as the view has it. */
  predicate MarkOf(files: seq<EditedFile>, directory: Option<Directory>, path: Path) {
    match directory
    case Some(inside) => !inside(path)
    case None => exists k :: 0 <= k < |files| && files[k].path == path && files[k].outside
  }

  function MarkedFiles(stored: seq<EditedFile>, directory: Option<Directory>, files: seq<EditedFile>):
    (r: seq<EditedFile>)
    ensures |r| == |files|
    ensures forall k :: 0 <= k < |r| ==> r[k] == files[k].(outside := MarkOf(stored, directory, files[k].path))
  {
    seq(|files|, k requires 0 <= k < |files| => files[k].(outside := MarkOf(stored, directory, files[k].path)))
  }

  /** The files the job wrote, then each path it removed or renamed and did not write. */
  function CallFiles(view: View, directory: Option<Directory>): seq<EditedFile> {
    MarkedFiles(view.files, directory, WithChanges(WrittenFiles(view.files), view.changes))
  }

  // A call's lists.

  function CallOf(view: View, own: seq<EditedFile>): Call {
    Call(view.command, Reported(view.files), view.changes, own)
  }

  /** The calls with a block's, when it is a shell call that returned, of the run `run` if one is given. */
  function WithCallOf(calls: seq<Call>, block: Entry, run: Option<nat>): (r: seq<Call>)
  {
    if block.ShellCall? && block.view.Some? && (run.None? || run == Some(block.run))
    then calls + [CallOf(block.view.value, block.view.value.files)]
    else calls
  }

  /** The calls of `blocks[from..index]` that returned. */
  function CallsBefore(blocks: seq<Entry>, from: nat, index: nat, run: Option<nat>): (calls: seq<Call>)
    requires from <= index <= |blocks|
    decreases index
  {
    if index == from then []
    else WithCallOf(CallsBefore(blocks, from, index - 1, run), blocks[index - 1], run)
  }

  /** Where the request of the block at `index` starts. */
  function RequestStart(blocks: seq<Entry>, index: nat): (start: Option<nat>)
    requires index <= |blocks|
    ensures match start
            case Some(at) => at < index && blocks[at].Message? && forall k :: at < k < index ==> !blocks[k].Message?
            case None => forall k :: 0 <= k < index ==> !blocks[k].Message?
  {
    if index == 0 then None
    else if blocks[index - 1].Message? then Some(index - 1)
    else RequestStart(blocks, index - 1)
  }

  datatype Planned = Planned(files: seq<EditedFile>, run: seq<ChangedFile>, request: Option<seq<ChangedFile>>)

  /** The lists of the call at `index` whose view is `view`, from the blocks before it. */
  function Plan(blocks: seq<Entry>, index: nat, view: View, directory: Option<Directory>): Planned
    requires index < |blocks| && blocks[index].ShellCall?
  {
    var start := RequestStart(blocks, index);
    var from := if start.Some? then start.value else 0;
    var own := CallFiles(view, directory);
    var request := CallsBefore(blocks, from, index, None) + [CallOf(view, own)];
    var runs := CallsBefore(blocks, from, index, Some(blocks[index].run)) + [CallOf(view, own)];
    Planned(own,
            Listed(Followed(runs).files),
            if start.Some? then Some(Listed(Followed(request).files)) else None)
  }

  /** The view with its lists. */
  function Finished(planned: Planned, view: View): View {
    view.(files := planned.files, runFiles := Some(planned.run), requestFiles := planned.request)
  }

  function WithView(blocks: seq<Entry>, index: nat, view: View): (r: seq<Entry>)
    requires index < |blocks| && blocks[index].ShellCall?
    ensures |r| == |blocks|
    ensures forall k :: 0 <= k < |r| ==> (r[k].ShellCall? <==> blocks[k].ShellCall?)
  {
    blocks[index := ShellCall(blocks[index].run, Some(view))]
  }

  predicate HasLists(entry: Entry) {
    entry.ShellCall? && entry.view.Some? && entry.view.value.runFiles.Some?
  }

  /** The calls with lists from `at` on to the request's end. */
  function ListedFrom(blocks: seq<Entry>, at: nat): (later: seq<nat>)
    requires at <= |blocks|
    ensures forall k :: 0 <= k < |later| ==> at <= later[k] < |blocks| && HasLists(blocks[later[k]])
    ensures forall j, k :: 0 <= j < k < |later| ==> later[j] < later[k]
    ensures forall i: nat :: i in later <==>
                               at <= i < |blocks| && HasLists(blocks[i]) && forall k :: at <= k < i ==> !blocks[k].Message?
    decreases |blocks| - at
  {
    if at == |blocks| || blocks[at].Message? then []
    else
      var rest := ListedFrom(blocks, at + 1);
      if HasLists(blocks[at]) then [at] + rest else rest
  }

  function LaterInRequest(blocks: seq<Entry>, index: nat): seq<nat>
    requires index < |blocks|
  {
    ListedFrom(blocks, index + 1)
  }

  /** Lists the calls at `indices` again, one after the other; each keeps its own files' marks. */
  function Relisted(blocks: seq<Entry>, indices: seq<nat>): (r: seq<Entry>)
    requires forall k :: 0 <= k < |indices| ==> indices[k] < |blocks| && HasLists(blocks[indices[k]])
    ensures |r| == |blocks|
    ensures forall k :: 0 <= k < |r| ==> (r[k].ShellCall? <==> blocks[k].ShellCall?)
    decreases |indices|
  {
    if indices == [] then blocks
    else
      var at := indices[0];
      assert HasLists(blocks[at]);
      var view := blocks[at].view.value;
      Relisted(WithView(blocks, at, Finished(Plan(blocks, at, view, None), view)), indices[1..])
  }

  /** The call at `index` returned with `view`: it takes its lists, and the calls of its request that
      returned before it and come after it are listed again. */
  function Completed(blocks: seq<Entry>, index: nat, view: View, directory: Option<Directory>): (r: seq<Entry>)
    requires index < |blocks| && blocks[index].ShellCall?
    ensures |r| == |blocks|
    ensures forall k :: 0 <= k < |r| ==> (r[k].ShellCall? <==> blocks[k].ShellCall?)
  {
    var stored := WithView(blocks, index, Finished(Plan(blocks, index, view, directory), view));
    Relisted(stored, LaterInRequest(stored, index))
  }
}
